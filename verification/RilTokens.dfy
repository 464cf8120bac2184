/** The RIL client's token pool: a 32-bit word in which each set bit is a token in use. */
module RilTokens {
  /** A token has exactly one bit set. */
  predicate Single(t: bv32) { t != 0 && t & (t - 1) == 0 }

  /** All bits of `t` are marked in the pool. */
  predicate InUse(pool: bv32, t: bv32) { pool & t == t }

  /** The 32 tokens, `BITS[i]` being `1 << i`. */
  const BITS: seq<bv32> := [
    0x1, 0x2, 0x4, 0x8, 0x10, 0x20, 0x40, 0x80, 0x100, 0x200, 0x400, 0x800, 0x1000, 0x2000, 0x4000, 0x8000,
    0x1_0000, 0x2_0000, 0x4_0000, 0x8_0000, 0x10_0000, 0x20_0000, 0x40_0000, 0x80_0000,
    0x100_0000, 0x200_0000, 0x400_0000, 0x800_0000, 0x1000_0000, 0x2000_0000, 0x4000_0000, 0x8000_0000]

  function Bit(i: nat): bv32
    requires i < 32
  {
    BITS[i]
  }

  /** The pool before and after a free token is taken. */
  predicate Marked(pool: bv32, token: bv32, pool': bv32) {
    pool & token == 0 && pool' == pool | token
  }

  lemma Marks(pool: bv32, t: bv32)
    requires pool & t == 0
    ensures Marked(pool, t, pool | t)
  {}

  /** Freeing the token just taken gives the pool as it was. */
  lemma FreeUndoes(pool: bv32, t: bv32, pool': bv32)
    requires Marked(pool, t, pool')
    ensures FreeToken(pool', t) == pool
  {}

  /** AllocateToken: the lowest free bit, all bits below it being taken, or 0 if there is none. */
  method AllocateToken(pool: bv32) returns (pool': bv32, token: bv32)
    ensures token == 0 <==> pool == 0xFFFF_FFFF
    ensures token == 0 ==> pool' == pool
    ensures token != 0 ==> Single(token) && !InUse(pool, token) && Marked(pool, token, pool')
    ensures token != 0 ==> InUse(pool, token - 1)
  {
    hide *;
    if pool == 0xFFFF_FFFF { return pool, 0; }
    var i := 0;
    NothingBelow(pool);
    while i < 32
      invariant 0 <= i <= 32
      invariant forall j :: 0 <= j < i ==> InUse(pool, Bit(j))
      invariant i < 32 ==> InUse(pool, Bit(i) - 1)
    {
      BitIsSingle(i);
      var newToken := Bit(i);
      FreeOrInUse(pool, newToken);
      if pool & newToken == 0 {
        Marks(pool, newToken);
        return pool | newToken, newToken;
      }
      if i < 31 { AllBelow(pool, i); }
      i := i + 1;
    }
    AllBits(pool);
    return pool, 0;
  }

  lemma NothingBelow(pool: bv32)
    ensures InUse(pool, Bit(0) - 1)
  {}

  lemma BitIsSingle(i: nat)
    requires i < 32
    ensures Single(Bit(i))
  {
    hide Single;
    if i < 16 { SmallBit(BITS[i]); } else { LargeBit(BITS[i]); }
  }

  lemma SmallBit(t: bv32)
    requires t == 0x1 || t == 0x2 || t == 0x4 || t == 0x8 || t == 0x10 || t == 0x20 || t == 0x40 || t == 0x80
          || t == 0x100 || t == 0x200 || t == 0x400 || t == 0x800 || t == 0x1000 || t == 0x2000 || t == 0x4000
            || t == 0x8000
    ensures Single(t)
  {}

  lemma LargeBit(t: bv32)
    requires t == 0x1_0000 || t == 0x2_0000 || t == 0x4_0000 || t == 0x8_0000
          || t == 0x10_0000 || t == 0x20_0000 || t == 0x40_0000 || t == 0x80_0000
          || t == 0x100_0000 || t == 0x200_0000 || t == 0x400_0000 || t == 0x800_0000
          || t == 0x1000_0000 || t == 0x2000_0000 || t == 0x4000_0000 || t == 0x8000_0000
    ensures Single(t)
  {}

  lemma FreeOrInUse(pool: bv32, t: bv32)
    requires Single(t)
    ensures t != 0
    ensures pool & t == 0 ==> !InUse(pool, t) && pool != 0xFFFF_FFFF
    ensures pool & t != 0 ==> InUse(pool, t)
  {}

  function FreeToken(pool: bv32, token: bv32): bv32 { pool & !token }

  predicate IsValidToken(pool: bv32, token: bv32) { token != 0 && InUse(pool, token) }

  lemma Atomic(t: bv32, x: bv32)
    requires Single(t)
    ensures x & t == 0 || x & t == t
  {}

  lemma Disjoint(t: bv32, u: bv32)
    requires Single(t) && Single(u) && t != u
    ensures t & u == 0
  {
    hide Single;
    Atomic(t, u);
    Atomic(u, t);
    assert t & u == u & t;
  }

  lemma MarkFrame(pool: bv32, t: bv32, pool': bv32, u: bv32)
    requires Marked(pool, t, pool') && t & u == 0 && u != 0
    ensures InUse(pool', u) <==> InUse(pool, u)
  {
    hide InUse;
    UnionFrame(pool, t, u);
  }

  lemma UnionFrame(pool: bv32, t: bv32, u: bv32)
    requires t & u == 0 && u != 0
    ensures InUse(pool | t, u) <==> InUse(pool, u)
  {}

  lemma FreeFrame(pool: bv32, t: bv32, u: bv32)
    requires t & u == 0 && u != 0
    ensures InUse(FreeToken(pool, t), u) <==> InUse(pool, u)
  {}

  lemma MarkedIsInUse(pool: bv32, t: bv32, pool': bv32)
    requires Marked(pool, t, pool')
    ensures InUse(pool', t)
  {}

  lemma FreeIsNotInUse(pool: bv32, t: bv32)
    requires t != 0
    ensures !InUse(FreeToken(pool, t), t)
  {}

  /** Allocating a token changes that token's mark and no other's. */
  lemma OnlyThatMarked(pool: bv32, t: bv32, pool': bv32, u: bv32)
    requires Single(t) && Single(u) && Marked(pool, t, pool')
    ensures InUse(pool', t)
    ensures t != u ==> (InUse(pool', u) <==> InUse(pool, u))
  {
    hide InUse, Marked;
    MarkedIsInUse(pool, t, pool');
    if t != u {
      Disjoint(t, u);
      MarkFrame(pool, t, pool', u);
    }
  }

  /** Freeing a token changes that token's mark and no other's. */
  lemma OnlyThatFreed(pool: bv32, t: bv32, u: bv32)
    requires Single(t) && Single(u)
    ensures !InUse(FreeToken(pool, t), t)
    ensures t != u ==> (InUse(FreeToken(pool, t), u) <==> InUse(pool, u))
  {
    hide InUse, FreeToken;
    FreeIsNotInUse(pool, t);
    if t != u {
      Disjoint(t, u);
      FreeFrame(pool, t, u);
    }
  }

  /** Two tokens in use together make a valid word that is not a token. */
  lemma UnionOfTokens(pool: bv32, a: bv32, b: bv32)
    requires Single(a) && Single(b) && a != b && InUse(pool, a) && InUse(pool, b)
    ensures IsValidToken(pool, a | b) && !Single(a | b)
  {
    Disjoint(a, b);
    InUseUnion(pool, a, b);
    NotSingle(a, b);
  }

  lemma InUseUnion(pool: bv32, a: bv32, b: bv32)
    requires InUse(pool, a) && InUse(pool, b) && a != 0
    ensures IsValidToken(pool, a | b)
  {}

  lemma NotSingle(a: bv32, b: bv32)
    requires a & b == 0 && a != 0 && b != 0
    ensures !Single(a | b)
  {}

  /** A word with several bits contains a smaller token. */
  lemma LowestBit(word: bv32) returns (bit: bv32)
    requires word != 0
    ensures Single(bit) && InUse(word, bit) && (bit == word <==> Single(word))
  {
    bit := word & (0 - word);
  }

  lemma FreedWithWord(pool: bv32, word: bv32, bit: bv32)
    requires InUse(word, bit) && bit != 0
    ensures !InUse(FreeToken(pool, word), bit)
    ensures InUse(pool, word) ==> InUse(pool, bit)
  {}

  /** A word is accepted exactly if it is not 0 and each token that it contains is in use. */
  lemma AcceptedMeans(pool: bv32, word: bv32)
    ensures IsValidToken(pool, word) <==> word != 0 && forall t :: Single(t) && t & word != 0 ==> t & pool != 0
  {
    hide Single;
    if InUse(pool, word) {
      forall t | Single(t) && t & word != 0 ensures t & pool != 0 { Inside(pool, word, t); }
    } else {
      var missing := word & !pool;
      NotInside(pool, word);
      var t := LowestBit(missing);
      OneMissing(pool, word, t);
    }
  }

  lemma Inside(pool: bv32, word: bv32, t: bv32)
    requires pool & word == word && t & word != 0
    ensures t & pool != 0
  {}

  lemma NotInside(pool: bv32, word: bv32)
    requires pool & word != word
    ensures word & !pool != 0
  {}

  lemma OneMissing(pool: bv32, word: bv32, t: bv32)
    requires t != 0 && (word & !pool) & t == t
    ensures t & word != 0 && t & pool == 0
  {}

  /** Freeing a word frees exactly the tokens that it contains. */
  lemma FreedMeans(pool: bv32, word: bv32, t: bv32)
    requires Single(t)
    ensures t & FreeToken(pool, word) != 0 <==> t & pool != 0 && t & word == 0
  {
    hide Single, FreeToken;
    Atomic(t, word);
    if word & t == 0 {
      FreesOthers(pool, word, t);
    } else {
      FreesOwn(pool, word, t);
    }
  }

  lemma FreesOthers(pool: bv32, word: bv32, t: bv32)
    requires word & t == 0
    ensures t & FreeToken(pool, word) == t & pool && t & word == 0
  {}

  lemma FreesOwn(pool: bv32, word: bv32, t: bv32)
    requires word & t == t && t != 0
    ensures t & FreeToken(pool, word) == 0 && t & word != 0
  {}

  /** There are 32 tokens. */
  lemma SingleIsListed(t: bv32)
    requires Single(t)
    ensures t in BITS
  {
    if t < 0x1_0000 { SmallSingle(t); } else { LargeSingle(t); }
  }

  lemma SmallSingle(t: bv32)
    requires Single(t) && t < 0x1_0000
    ensures t in BITS[..16]
  {
    assert t == 0x1 || t == 0x2 || t == 0x4 || t == 0x8 || t == 0x10 || t == 0x20 || t == 0x40 || t == 0x80
        || t == 0x100 || t == 0x200 || t == 0x400 || t == 0x800 || t == 0x1000 || t == 0x2000 || t == 0x4000
          || t == 0x8000;
    assert BITS[..16] == [0x1, 0x2, 0x4, 0x8, 0x10, 0x20, 0x40, 0x80, 0x100, 0x200, 0x400, 0x800, 0x1000, 0x2000,
        0x4000, 0x8000];
  }

  lemma LargeSingle(t: bv32)
    requires Single(t) && t >= 0x1_0000
    ensures t in BITS[16..]
  {
    assert t == 0x1_0000 || t == 0x2_0000 || t == 0x4_0000 || t == 0x8_0000
        || t == 0x10_0000 || t == 0x20_0000 || t == 0x40_0000 || t == 0x80_0000
        || t == 0x100_0000 || t == 0x200_0000 || t == 0x400_0000 || t == 0x800_0000
        || t == 0x1000_0000 || t == 0x2000_0000 || t == 0x4000_0000 || t == 0x8000_0000;
  }

  lemma {:induction false} AtMost(s: seq<bv32>)
    ensures |set x | x in s| <= |s|
  {
    if s != [] {
      var init := s[..|s| - 1];
      AtMost(init);
      assert (set x | x in s) == (set x | x in init) + {s[|s| - 1]};
    }
  }

  /** The pigeonhole: 32 different tokens in use leave none free. */
  lemma AllTokensInUse(pool: bv32, tokens: set<bv32>)
    requires |tokens| == 32 && forall t :: t in tokens ==> Single(t) && InUse(pool, t)
    ensures pool == 0xFFFF_FFFF
  {
    ThirtyTwoAreAll(tokens);
    if pool != 0xFFFF_FFFF {
      var free := LowestBit(!pool);
      assert free in tokens;
      FreeIsFree(pool, free);
    }
  }

  lemma ThirtyTwoAreAll(tokens: set<bv32>)
    requires |tokens| == 32 && forall t :: t in tokens ==> Single(t)
    ensures forall t :: Single(t) ==> t in tokens
  {
    hide Single;
    var bits := set x | x in BITS;
    AtMost(BITS);
    BitsDiffer();
    forall t | t in tokens ensures t in bits { SingleIsListed(t); }
    SubsetSize(tokens, bits);
    forall t | Single(t) ensures t in tokens { SingleIsListed(t); }
  }

  lemma SubsetSize(a: set<bv32>, b: set<bv32>)
    requires a <= b
    ensures |a| <= |b| && (|a| == |b| ==> a == b)
  {
    assert |b - a| == |b| - |a|;
    if |a| == |b| { assert b - a == {}; }
  }

  lemma AtMost32(tokens: set<bv32>)
    requires forall t :: t in tokens ==> Single(t)
    ensures |tokens| <= 32
  {
    hide Single;
    var bits := set x | x in BITS;
    AtMost(BITS);
    BitsDiffer();
    forall t | t in tokens ensures t in bits { SingleIsListed(t); }
    SubsetSize(tokens, bits);
  }

  lemma AllBits(pool: bv32)
    requires forall i :: 0 <= i < 32 ==> InUse(pool, Bit(i))
    ensures pool == 0xFFFF_FFFF
  {
    if pool != 0xFFFF_FFFF {
      var free := LowestBit(!pool);
      SingleIsListed(free);
      var i :| 0 <= i < |BITS| && free == BITS[i];
      assert free == Bit(i);
      FreeIsFree(pool, free);
    }
  }

  lemma FreeIsFree(pool: bv32, bit: bv32)
    requires bit != 0 && InUse(!pool, bit)
    ensures !InUse(pool, bit)
  {}

  lemma WholePool(t: bv32)
    ensures InUse(0xFFFF_FFFF, t)
  {}

  /** The bits below the next token are this token's and those below it. */
  predicate Next(t: bv32, u: bv32) { u - 1 == (t - 1) | t }

  lemma NextBit(i: nat)
    requires i < 31
    ensures Next(Bit(i), Bit(i + 1))
  {
    hide Single, Next;
    if i < 8 {
      SmallNext(BITS[i], BITS[i + 1]);
    } else if i < 16 {
      MiddleNext(BITS[i], BITS[i + 1]);
    } else if i < 24 {
      LargeNext(BITS[i], BITS[i + 1]);
    } else {
      HugeNext(BITS[i], BITS[i + 1]);
    }
  }

  /** With all bits below this token taken, and this one, all bits below the next are taken. */
  lemma AllBelow(pool: bv32, i: nat)
    requires i < 31 && InUse(pool, Bit(i) - 1) && InUse(pool, Bit(i))
    ensures InUse(pool, Bit(i + 1) - 1)
  {
    hide *;
    NextBit(i);
    InUseNext(pool, Bit(i), Bit(i + 1));
  }

  lemma InUseNext(pool: bv32, t: bv32, u: bv32)
    requires Next(t, u) && InUse(pool, t - 1) && InUse(pool, t)
    ensures InUse(pool, u - 1)
  {
    InUseBoth(pool, t - 1, t);
    hide InUse;
  }

  lemma InUseBoth(pool: bv32, a: bv32, b: bv32)
    requires InUse(pool, a) && InUse(pool, b)
    ensures InUse(pool, a | b)
  {}

  lemma SmallNext(t: bv32, u: bv32)
    requires (t == 0x1 && u == 0x2) || (t == 0x2 && u == 0x4) || (t == 0x4 && u == 0x8)
          || (t == 0x8 && u == 0x10) || (t == 0x10 && u == 0x20) || (t == 0x20 && u == 0x40)
          || (t == 0x40 && u == 0x80) || (t == 0x80 && u == 0x100)
    ensures Next(t, u)
  {}

  lemma MiddleNext(t: bv32, u: bv32)
    requires (t == 0x100 && u == 0x200) || (t == 0x200 && u == 0x400) || (t == 0x400 && u == 0x800)
          || (t == 0x800 && u == 0x1000) || (t == 0x1000 && u == 0x2000) || (t == 0x2000 && u == 0x4000)
          || (t == 0x4000 && u == 0x8000) || (t == 0x8000 && u == 0x1_0000)
    ensures Next(t, u)
  {}

  lemma LargeNext(t: bv32, u: bv32)
    requires (t == 0x1_0000 && u == 0x2_0000) || (t == 0x2_0000 && u == 0x4_0000)
          || (t == 0x4_0000 && u == 0x8_0000) || (t == 0x8_0000 && u == 0x10_0000)
          || (t == 0x10_0000 && u == 0x20_0000) || (t == 0x20_0000 && u == 0x40_0000)
          || (t == 0x40_0000 && u == 0x80_0000) || (t == 0x80_0000 && u == 0x100_0000)
    ensures Next(t, u)
  {}

  lemma HugeNext(t: bv32, u: bv32)
    requires (t == 0x100_0000 && u == 0x200_0000) || (t == 0x200_0000 && u == 0x400_0000)
          || (t == 0x400_0000 && u == 0x800_0000) || (t == 0x800_0000 && u == 0x1000_0000)
          || (t == 0x1000_0000 && u == 0x2000_0000) || (t == 0x2000_0000 && u == 0x4000_0000)
          || (t == 0x4000_0000 && u == 0x8000_0000)
    ensures Next(t, u)
  {}

  /** A set with every token has 32 elements or more. */
  lemma AllListed(bits: set<bv32>)
    requires forall t :: Single(t) ==> t in bits
    ensures |bits| >= 32
  {
    hide Single;
    BitsDiffer();
    forall i | 0 <= i < 32 ensures BITS[i] in bits { BitIsSingle(i); }
    AtLeast(BITS, bits);
  }

  /** The number of a token's bit. */
  function Index(t: bv32): nat {
    if t == 0x1 then 0 else if t == 0x2 then 1 else if t == 0x4 then 2 else
    if t == 0x8 then 3 else if t == 0x10 then 4 else if t == 0x20 then 5 else
    if t == 0x40 then 6 else if t == 0x80 then 7 else if t == 0x100 then 8 else
    if t == 0x200 then 9 else if t == 0x400 then 10 else if t == 0x800 then 11 else
    if t == 0x1000 then 12 else if t == 0x2000 then 13 else if t == 0x4000 then 14 else
    if t == 0x8000 then 15 else if t == 0x10000 then 16 else if t == 0x20000 then 17 else
    if t == 0x40000 then 18 else if t == 0x80000 then 19 else if t == 0x100000 then 20 else
    if t == 0x200000 then 21 else if t == 0x400000 then 22 else if t == 0x800000 then 23 else
    if t == 0x1000000 then 24 else if t == 0x2000000 then 25 else if t == 0x4000000 then 26 else
    if t == 0x8000000 then 27 else if t == 0x10000000 then 28 else if t == 0x20000000 then 29 else
    if t == 0x40000000 then 30 else 31
  }

  lemma BitsDiffer()
    ensures |BITS| == 32 && forall i, j :: 0 <= i < j < 32 ==> BITS[i] != BITS[j]
  {
    hide Index;
    forall i | 0 <= i < 32 ensures Index(BITS[i]) == i {
      if i < 16 { SmallIndex(i); } else if i < 24 { MiddleIndex(i); } else { LargeIndex(i); }
    }
  }

  lemma SmallIndex(i: nat)
    requires i < 16
    ensures Index(BITS[i]) == i
  {}

  lemma MiddleIndex(i: nat)
    requires 16 <= i < 24
    ensures Index(BITS[i]) == i
  {}

  lemma LargeIndex(i: nat)
    requires 24 <= i < 32
    ensures Index(BITS[i]) == i
  {}

  lemma {:induction false} AtLeast(s: seq<bv32>, bits: set<bv32>)
    requires forall i, j :: 0 <= i < j < |s| ==> s[i] != s[j]
    requires forall i :: 0 <= i < |s| ==> s[i] in bits
    ensures |bits| >= |s|
  {
    if s != [] {
      AtLeast(s[1..], bits - {s[0]});
    }
  }
}
