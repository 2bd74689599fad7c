// Numbers as 32-bit words, and words as numbers.
module Numbers {

  function Half(w: bv32): bv32 { w >> 1 }

  predicate Odd(w: bv32) { w & 1 == 1 }

  function Join(half: bv32, odd: bool): bv32 { (half << 1) | (if odd then 1 else 0) }

  // The low 32 bits of n.
  function Word(n: nat): bv32 {
    if n == 0 then 0 else Join(Word(n / 2), n % 2 == 1)
  }

  // The number a word stands for.
  function Number(w: bv32): nat
    decreases w
  {
    if w == 0 then 0 else
      assert Half(w) < w;
      2 * Number(Half(w)) + (if Odd(w) then 1 else 0)
  }

  // The same power of two as a number and as a word.
  predicate SamePower(n: nat, w: bv32) {
    (n == 1 && w == 1) || (n > 1 && n % 2 == 0 && w != 0 && !Odd(w) && SamePower(n / 2, Half(w)))
  }

  // A half and a bit come out of the whole again while the half has a bit to spare.
  lemma Halves(h: bv32, odd: bool, limit: bv32)
    requires !Odd(limit) && h < Half(limit)
    ensures var w := Join(h, odd);
      Half(w) == h && Odd(w) == odd && (w == 0 <==> h == 0 && !odd) && w < limit
  {
  }

  lemma WordIs(n: nat)
    ensures Word(n) == Join(Word(n / 2), n % 2 == 1)
  {
    if n == 0 { JoinZero(); }
  }

  lemma JoinZero()
    ensures Join(0, false) == 0
  {
  }

  // A number below a power of two has a word below it, and the word stands for the number.
  lemma {:induction false} NumberOfWord(n: nat, top: nat, limit: bv32)
    requires SamePower(top, limit) && n < top
    ensures Word(n) < limit && Number(Word(n)) == n
    decreases top
  {
    hide Half, Odd, Join;
    if top > 1 {
      NumberOfWord(n / 2, top / 2, Half(limit));
      Halves(Word(n / 2), n % 2 == 1, limit);
      WordIs(n);
    }
  }

  lemma LowAddresses()
    ensures SamePower(0x8000, 0x8000)
  {
    assert SamePower(0x2, 0x2);
    assert SamePower(0x8, 0x8);
    assert SamePower(0x20, 0x20);
    assert SamePower(0x80, 0x80);
    assert SamePower(0x200, 0x200);
    assert SamePower(0x800, 0x800);
    assert SamePower(0x2000, 0x2000);
  }

  lemma Addresses()
    ensures SamePower(0x1000_0000, 0x1000_0000)
  {
    LowAddresses();
    assert SamePower(0x2_0000, 0x2_0000);
    assert SamePower(0x8_0000, 0x8_0000);
    assert SamePower(0x20_0000, 0x20_0000);
    assert SamePower(0x80_0000, 0x80_0000);
    assert SamePower(0x200_0000, 0x200_0000);
    assert SamePower(0x800_0000, 0x800_0000);
  }

  // Every instruction address is the number of its word.
  lemma AddressOfWord(n: nat)
    requires n < 0x1000_0000
    ensures Word(n) < 0x1000_0000 && Number(Word(n)) == n
  {
    hide Word, Number, SamePower;
    Addresses();
    NumberOfWord(n, 0x1000_0000, 0x1000_0000);
  }

  // The addresses kept for I/O.
  predicate Reserved(w: bv32) {
    w == 0xFFF_FFFB || w == 0xFFF_FFFC || w == 0xFFF_FFFD || w == 0xFFF_FFFE || w == 0xFFF_FFFF
  }

  lemma ReservedNumbers(w: bv32)
    requires Reserved(w)
    ensures Number(w) >= 0xFFF_FFFB
  {
    assert Number(0x7) == 0x7;
    assert Number(0x1F) == 0x1F;
    assert Number(0x7F) == 0x7F;
    assert Number(0x1FF) == 0x1FF;
    assert Number(0x7FF) == 0x7FF;
    assert Number(0x1FFF) == 0x1FFF;
    assert Number(0x7FFF) == 0x7FFF;
    assert Number(0x1_FFFF) == 0x1_FFFF;
    assert Number(0x7_FFFF) == 0x7_FFFF;
    assert Number(0x1F_FFFF) == 0x1F_FFFF;
    assert Number(0x7F_FFFF) == 0x7F_FFFF;
    assert Number(0x1FF_FFFF) == 0x1FF_FFFF;
    assert Number(0x3FF_FFFE) == 0x3FF_FFFE && Number(0x3FF_FFFF) == 0x3FF_FFFF;
    assert Number(0x7FF_FFFD) == 0x7FF_FFFD && Number(0x7FF_FFFE) == 0x7FF_FFFE && Number(0x7FF_FFFF) == 0x7FF_FFFF;
  }

  // The address of an instruction below them is none of them.
  lemma NotReserved(n: nat)
    requires n < 0xFFF_FFFB
    ensures !Reserved(Word(n))
  {
    hide Word, Number;
    AddressOfWord(n);
    if Reserved(Word(n)) { ReservedNumbers(Word(n)); }
  }

  // ---- Adding ----

  function Plus(a: bv32, b: bv32): bv32 { a + b }

  function Next(a: bv32): bv32 { a + 1 }

  lemma JoinNext(h: bv32)
    ensures Next(Join(h, false)) == Join(h, true) && Next(Join(h, true)) == Join(Next(h), false)
  {
  }

  lemma {:induction false} WordNext(n: nat)
    ensures Word(n + 1) == Next(Word(n))
  {
    hide Join, Next, Word;
    WordIs(n);
    WordIs(n + 1);
    JoinNext(Word(n / 2));
    if n % 2 == 0 {
      assert (n + 1) / 2 == n / 2;
    } else {
      assert (n + 1) / 2 == n / 2 + 1;
      WordNext(n / 2);
    }
  }

  lemma PlusNext(a: bv32, b: bv32)
    ensures Plus(a, Next(b)) == Next(Plus(a, b)) && Plus(a, 0) == a
  {
  }

  // Adding numbers is adding words, up to wrap-around.
  lemma {:induction false} WordAdd(m: nat, n: nat)
    ensures Word(m + n) == Plus(Word(m), Word(n))
    decreases n
  {
    hide Plus, Next, Join;
    if n == 0 {
      PlusNext(Word(m), 0);
    } else {
      WordAdd(m, n - 1);
      WordNext(n - 1);
      WordNext(m + n - 1);
      PlusNext(Word(m), Word(n - 1));
    }
  }

  lemma JoinHalf(w: bv32)
    ensures Join(Half(w), Odd(w)) == w && (w != 0 ==> Half(w) < w)
  {
  }

  // A word is the word of the number it stands for.
  lemma {:induction false} WordOfNumber(w: bv32)
    ensures Word(Number(w)) == w
    decreases w
  {
    hide Join, Half, Odd;
    if w != 0 {
      JoinHalf(w);
      WordOfNumber(Half(w));
      var h := Number(Half(w));
      assert Number(w) / 2 == h && (Number(w) % 2 == 1 <==> Odd(w));
      WordIs(Number(w));
    }
  }

  // Moving an address by n moves the number it stands for by n, as long as it stays an address.
  lemma AddressPlus(a: bv32, n: nat)
    requires Number(a) + n < 0x1000_0000
    ensures Plus(a, Word(n)) < 0x1000_0000 && Number(Plus(a, Word(n))) == Number(a) + n
  {
    hide Word, Number, Plus;
    WordOfNumber(a);
    WordAdd(Number(a), n);
    AddressOfWord(Number(a) + n);
  }
}
