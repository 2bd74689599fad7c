// khash.h keeps two flag bits per bucket, sixteen buckets to a 32-bit word.
module Flags {

  // The four values of a bit pair: 0, 1, 2 and 3. The table never stores the last one.
  datatype Flag = Live | Deleted | Empty | Both

  // `(i & 0xfU) << 1`
  function Shift(i: nat): (s: bv6)
    ensures IsShift(s)
  {
    match i % 16
    case 0 => 0 case 1 => 2 case 2 => 4 case 3 => 6
    case 4 => 8 case 5 => 10 case 6 => 12 case 7 => 14
    case 8 => 16 case 9 => 18 case 10 => 20 case 11 => 22
    case 12 => 24 case 13 => 26 case 14 => 28 case _ => 30
  }

  predicate IsShift(s: bv6) { s < 32 && s & 1 == 0 }

  predicate IsEmptyBit(w: bv32, s: bv6) requires IsShift(s) { (w >> s) & 2 != 0 }
  predicate IsDelBit(w: bv32, s: bv6) requires IsShift(s) { (w >> s) & 1 != 0 }
  predicate IsEitherBit(w: bv32, s: bv6) requires IsShift(s) { (w >> s) & 3 != 0 }
  function SetDelBit(w: bv32, s: bv6): bv32 requires IsShift(s) { w | (1 << s) }
  function ClearEmptyBit(w: bv32, s: bv6): bv32 requires IsShift(s) { w & !(2 << s) }
  function ClearBothBits(w: bv32, s: bv6): bv32 requires IsShift(s) { w & !(3 << s) }

  function Decode(w: bv32, s: bv6): Flag
    requires IsShift(s)
  {
    if IsEmptyBit(w, s) then (if IsDelBit(w, s) then Both else Empty)
    else if IsDelBit(w, s) then Deleted
    else Live
  }

  lemma EitherIsNotLive(w: bv32, s: bv6)
    requires IsShift(s)
    ensures IsEitherBit(w, s) <==> Decode(w, s) != Live
  {
  }

  lemma SetDelEffect(w: bv32, s: bv6, t: bv6)
    requires IsShift(s) && IsShift(t) && Decode(w, s) == Live
    ensures Decode(SetDelBit(w, s), t) == if s == t then Deleted else Decode(w, t)
  {
  }

  lemma ClearEmptyEffect(w: bv32, s: bv6, t: bv6)
    requires IsShift(s) && IsShift(t) && Decode(w, s) == Empty
    ensures Decode(ClearEmptyBit(w, s), t) == if s == t then Live else Decode(w, t)
  {
  }

  lemma ClearBothEffect(w: bv32, s: bv6, t: bv6)
    requires IsShift(s) && IsShift(t)
    ensures Decode(ClearBothBits(w, s), t) == if s == t then Live else Decode(w, t)
  {
  }

  // Bytes of 0xaa mark every bucket of a word empty.
  lemma FillEffect(s: bv6)
    requires IsShift(s)
    ensures Decode(0xaaaa_aaaa, s) == Empty
  {
  }

  lemma ShiftInjective(i: nat, j: nat)
    requires i % 16 != j % 16
    ensures Shift(i) != Shift(j)
  {
  }

  // The flag of bucket i.
  function Slot(words: seq<bv32>, i: nat): Flag
    requires i < 16 * |words|
  {
    Decode(words[i / 16], Shift(i))
  }

  // The flags of all buckets the words have room for.
  ghost function Slots(words: seq<bv32>): (fl: seq<Flag>)
    ensures |fl| == 16 * |words|
    ensures forall i: nat :: i < 16 * |words| ==> fl[i] == Slot(words, i)
  {
    seq(16 * |words|, (i: nat) requires i < 16 * |words| => Slot(words, i))
  }

  // `__ac_fsize(m)`
  function FSize(m: nat): (w: nat)
    ensures w >= 1 && (m % 16 == 0 || m < 16 ==> m <= 16 * w)
  {
    if m < 16 then 1 else m / 16
  }

  // `__ac_isempty`, `__ac_isdel` and `__ac_iseither`
  predicate IsEmpty(flags: array<bv32>, i: nat)
    reads flags
    requires i < 16 * flags.Length
    ensures IsEmpty(flags, i) <==> Slots(flags[..])[i] in {Empty, Both}
  {
    IsEmptyBit(flags[i / 16], Shift(i))
  }

  predicate IsDel(flags: array<bv32>, i: nat)
    reads flags
    requires i < 16 * flags.Length
    ensures IsDel(flags, i) <==> Slots(flags[..])[i] in {Deleted, Both}
  {
    IsDelBit(flags[i / 16], Shift(i))
  }

  predicate IsEither(flags: array<bv32>, i: nat)
    reads flags
    requires i < 16 * flags.Length
    ensures IsEither(flags, i) <==> Slots(flags[..])[i] != Live
  {
    EitherIsNotLive(flags[i / 16], Shift(i));
    IsEitherBit(flags[i / 16], Shift(i))
  }

  // If one word changes so that bucket i gets flag f and its neighbours keep theirs,
  // the flags as a whole change at i only.
  lemma OneSlot(words: seq<bv32>, i: nat, w: bv32, f: Flag)
    requires i < 16 * |words|
    requires forall t: bv6 :: IsShift(t) ==>
      Decode(w, t) == if t == Shift(i) then f else Decode(words[i / 16], t)
    ensures Slots(words[i / 16 := w]) == Slots(words)[i := f]
  {
    var was, now := Slots(words), Slots(words[i / 16 := w]);
    forall k: nat | k < |now|
      ensures now[k] == was[i := f][k]
    {
      if k / 16 == i / 16 && k != i {
        ShiftInjective(i, k);
      }
    }
  }

  // `__ac_set_isdel_true` on a live bucket
  method SetIsDelTrue(flags: array<bv32>, i: nat)
    requires i < 16 * flags.Length && Slot(flags[..], i) == Live
    modifies flags
    ensures Slots(flags[..]) == old(Slots(flags[..]))[i := Deleted]
  {
    ghost var words := flags[..];
    var w := flags[i / 16];
    forall t: bv6 | IsShift(t)
      ensures Decode(SetDelBit(w, Shift(i)), t) == if t == Shift(i) then Deleted else Decode(w, t)
    {
      SetDelEffect(w, Shift(i), t);
    }
    flags[i / 16] := SetDelBit(w, Shift(i));
    OneSlot(words, i, SetDelBit(w, Shift(i)), Deleted);
    assert flags[..] == words[i / 16 := SetDelBit(w, Shift(i))];
  }

  // `__ac_set_isempty_false` on an empty bucket
  method SetIsEmptyFalse(flags: array<bv32>, i: nat)
    requires i < 16 * flags.Length && Slot(flags[..], i) == Empty
    modifies flags
    ensures Slots(flags[..]) == old(Slots(flags[..]))[i := Live]
  {
    ghost var words := flags[..];
    var w := flags[i / 16];
    forall t: bv6 | IsShift(t)
      ensures Decode(ClearEmptyBit(w, Shift(i)), t) == if t == Shift(i) then Live else Decode(w, t)
    {
      ClearEmptyEffect(w, Shift(i), t);
    }
    flags[i / 16] := ClearEmptyBit(w, Shift(i));
    OneSlot(words, i, ClearEmptyBit(w, Shift(i)), Live);
    assert flags[..] == words[i / 16 := ClearEmptyBit(w, Shift(i))];
  }

  // `__ac_set_isboth_false`
  method SetIsBothFalse(flags: array<bv32>, i: nat)
    requires i < 16 * flags.Length
    modifies flags
    ensures Slots(flags[..]) == old(Slots(flags[..]))[i := Live]
  {
    ghost var words := flags[..];
    var w := flags[i / 16];
    forall t: bv6 | IsShift(t)
      ensures Decode(ClearBothBits(w, Shift(i)), t) == if t == Shift(i) then Live else Decode(w, t)
    {
      ClearBothEffect(w, Shift(i), t);
    }
    flags[i / 16] := ClearBothBits(w, Shift(i));
    OneSlot(words, i, ClearBothBits(w, Shift(i)), Live);
    assert flags[..] == words[i / 16 := ClearBothBits(w, Shift(i))];
  }

  // `memset(flags, 0xaa, ...)`
  method Fill(flags: array<bv32>)
    modifies flags
    ensures forall i: nat :: i < 16 * flags.Length ==> Slots(flags[..])[i] == Empty
  {
    forall k | 0 <= k < flags.Length { flags[k] := 0xaaaa_aaaa; }
    forall i: nat | i < 16 * flags.Length
      ensures Slots(flags[..])[i] == Empty
    {
      FillEffect(Shift(i));
    }
  }
}
