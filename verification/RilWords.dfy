/** Tokens and pools as the RIL client keeps them: 32-bit words, with what RilTokens proves of
  * their bits restated without them.
  */
module RilWords {
  import opened RilTokens

  datatype Word = Word(bits: bv32)

  /** The empty pool, and the mark of a free history slot. */
  const NONE := Word(0)

  /** Exactly one bit is set. */
  predicate IsToken(w: Word) { Single(w.bits) }

  /** The pool has every bit of `w`. */
  predicate Has(pool: Word, w: Word) { InUse(pool.bits, w.bits) }

  predicate IsFull(pool: Word) { pool.bits == 0xFFFF_FFFF }

  /** FreeToken. */
  function Minus(pool: Word, w: Word): Word { Word(FreeToken(pool.bits, w.bits)) }

  /** IsValidToken. */
  predicate Accepted(pool: Word, w: Word) { IsValidToken(pool.bits, w.bits) }

  /** The pool before and after a free token is taken. */
  predicate Taken(pool: Word, t: Word, pool': Word) { Marked(pool.bits, t.bits, pool'.bits) }

  method Allocate(pool: Word) returns (pool': Word, token: Word)
    ensures token == NONE <==> IsFull(pool)
    ensures token == NONE ==> pool' == pool
    ensures token != NONE ==> IsToken(token) && !Has(pool, token) && Taken(pool, token, pool')
  {
    var bits', bits := AllocateToken(pool.bits);
    return Word(bits'), Word(bits);
  }

  lemma TokenIsSome(t: Word)
    requires IsToken(t)
    ensures t != NONE
  {}

  lemma NoneEmpty(t: Word)
    requires IsToken(t)
    ensures !Has(NONE, t)
  {}

  lemma AcceptedHas(pool: Word, w: Word)
    ensures Accepted(pool, w) <==> w != NONE && Has(pool, w)
  {}

  /** Taking a token changes that token's mark and no other's. */
  lemma TakenMarks(pool: Word, t: Word, pool': Word, u: Word)
    requires IsToken(t) && IsToken(u) && Taken(pool, t, pool')
    ensures Has(pool', u) <==> u == t || Has(pool, u)
  {
    hide Single, InUse, Marked;
    OnlyThatMarked(pool.bits, t.bits, pool'.bits, u.bits);
    if u.bits != t.bits { assert u != t; } else { assert u == t; }
  }

  /** Freeing a token changes that token's mark and no other's. */
  lemma MinusMarks(pool: Word, t: Word, u: Word)
    requires IsToken(t) && IsToken(u)
    ensures Has(Minus(pool, t), u) <==> u != t && Has(pool, u)
  {
    OnlyThatFreed(pool.bits, t.bits, u.bits);
    hide Single, InUse, FreeToken;
    assert u == t <==> u.bits == t.bits;
  }

  /** Freeing the token just taken gives the pool as it was. */
  lemma MinusUndoes(pool: Word, t: Word, pool': Word)
    requires Taken(pool, t, pool')
    ensures Minus(pool', t) == pool
  {
    FreeUndoes(pool.bits, t.bits, pool'.bits);
  }

  /** A word that is no token contains a smaller token, which is freed with it. */
  lemma PartOf(pool: Word, w: Word) returns (t: Word)
    requires Accepted(pool, w) && !IsToken(w)
    ensures IsToken(t) && t != w && Has(pool, t) && !Has(Minus(pool, w), t)
  {
    var bit := LowestBit(w.bits);
    FreedWithWord(pool.bits, w.bits, bit);
    t := Word(bit);
  }

  function Union(a: Word, b: Word): Word { Word(a.bits | b.bits) }

  lemma UnionAccepted(pool: Word, a: Word, b: Word)
    requires IsToken(a) && IsToken(b) && a != b && Has(pool, a) && Has(pool, b)
    ensures Accepted(pool, Union(a, b)) && !IsToken(Union(a, b))
  {
    UnionOfTokens(pool.bits, a.bits, b.bits);
  }

  /** The pool is full exactly if 32 tokens are in use. */
  lemma FullIff32(pool: Word, tokens: set<Word>)
    requires forall t :: t in tokens <==> IsToken(t) && Has(pool, t)
    ensures IsFull(pool) <==> |tokens| == 32
    ensures |tokens| <= 32
  {
    hide Single, InUse;
    var bits := set t | t in tokens :: t.bits;
    SameSize(tokens, bits);
    forall b | b in bits ensures Single(b) && InUse(pool.bits, b) {
      assert Word(b) in tokens;
    }
    AtMost32(bits);
    if |tokens| == 32 {
      AllTokensInUse(pool.bits, bits);
    }
    if IsFull(pool) {
      forall b | Single(b) ensures b in bits {
        WholePool(b);
        assert Word(b) in tokens;
      }
      AllListed(bits);
    }
  }

  lemma {:induction false} SameSize(tokens: set<Word>, bits: set<bv32>)
    requires bits == set t | t in tokens :: t.bits
    ensures |bits| == |tokens|
  {
    if t :| t in tokens {
      var tokens', bits' := tokens - {t}, bits - {t.bits};
      forall b | b in bits' ensures Word(b) in tokens' {}
      forall u | u in tokens' ensures u.bits in bits' {}
      SameSize(tokens', bits');
    }
  }
}
