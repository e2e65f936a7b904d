/** The sampler's random words: Philox4x32-10 (Salmon et al., 2011), its rounds undone one by one,
    and the noise kernel that lays its words over the logits. A word is a number below 2^32; sums
    and products wrap as the kernel's do, and its exclusive or is taken bit by bit. */
module Philox {
  import opened Analysis
  import opened Integers

  const WORDS: int := 0x1_0000_0000

  type Word = x: int | 0 <= x < 0x1_0000_0000

  /** Two u64 words: a seed or an offset. */
  type Wide = x: int | 0 <= x < 0x1_0000_0000_0000_0000

  datatype Counter = Counter(x: Word, y: Word, z: Word, w: Word) {

    /** Word j of a block, j below 4. */
    function At(j: nat): Word {
      if j == 0 then x else if j == 1 then y else if j == 2 then z else w
    }
  }

  datatype Key = Key(x: Word, y: Word)

  /** The exclusive or of the low n bits. */
  function XorBits(n: nat, a: int, b: int): (r: nat)
    ensures r < Pow2(n)
  {
    if n == 0 then 0 else 2 * XorBits(n - 1, a / 2, b / 2) + (if a % 2 == b % 2 then 0 else 1)
  }

  lemma WordBits()
    ensures Pow2(32) == WORDS
  {
    assert Pow2(8) == 256;
    assert Pow2(16) == 65536;
    assert Pow2(24) == 16777216;
  }

  function Xor(a: Word, b: Word): Word {
    WordBits();
    XorBits(32, a, b)
  }

  /** Binary digit k. */
  function Digit(a: nat, k: nat): nat { if k == 0 then a % 2 else Digit(a / 2, k - 1) }

  lemma {:induction false} BitsDigit(n: nat, a: nat, b: nat, k: nat)
    requires k < n
    ensures Digit(XorBits(n, a, b), k) == if Digit(a, k) == Digit(b, k) then 0 else 1
  {
    if k > 0 {
      BitsDigit(n - 1, a / 2, b / 2, k - 1);
    }
  }

  /** Every digit of an exclusive or is 1 where the two words' digits differ. */
  lemma XorDigit(a: Word, b: Word, k: nat)
    requires k < 32
    ensures Digit(Xor(a, b), k) == if Digit(a, k) == Digit(b, k) then 0 else 1
  {
    hide XorBits, Digit;
    WordBits();
    BitsDigit(32, a, b, k);
  }

  const M0: Word := 0xD2511F53
  const M1: Word := 0xCD9E8D57

  /** The Weyl steps of the key. */
  const W0: Word := 0x9E3779B9
  const W1: Word := 0xBB67AE85

  /** The multipliers' inverses modulo 2^32. */
  const M0_INVERSE: Word := 0x991A7CDB
  const M1_INVERSE: Word := 0x6D7CAE67

  lemma HighFits(m: Word, a: Word)
    ensures 0 <= m * a / WORDS < WORDS
  {
    assert m * a <= (WORDS - 1) * a;
  }

  /** The two words of a product. */
  function MulHi(m: Word, a: Word): Word {
    HighFits(m, a);
    m * a / WORDS
  }

  function MulLo(m: Word, a: Word): Word { (m * a) % WORDS }

  /** The two words are the product. */
  lemma ProductWords(m: Word, a: Word)
    ensures MulHi(m, a) * WORDS + MulLo(m, a) == m * a
  {
  }

  function Bump(k: Key): Key { Key((k.x + W0) % WORDS, (k.y + W1) % WORDS) }

  /** The key of round n: bumped before each round but the first. */
  function RoundKey(k: Key, n: nat): Key {
    if n == 0 then k else Bump(RoundKey(k, n - 1))
  }

  function Round(c: Counter, k: Key): Counter {
    Counter(Xor(Xor(MulHi(M1, c.z), c.y), k.x), MulLo(M1, c.z), Xor(Xor(MulHi(M0, c.x), c.w), k.y), MulLo(M0, c.x))
  }

  function Rounds(c: Counter, k: Key, n: nat): Counter {
    if n == 0 then c else Round(Rounds(c, k, n - 1), RoundKey(k, n - 1))
  }

  /** `dash_philox`: the counter and the key updated in place over ten rounds. */
  method Generate(counter: Counter, key: Key) returns (c: Counter)
    ensures c == Rounds(counter, key, 10)
  {
    hide Xor, MulHi, MulLo;
    c := counter;
    var k := key;
    for round := 0 to 10
      invariant k == RoundKey(key, if round == 0 then 0 else round - 1)
      invariant c == Rounds(counter, key, round)
    {
      if round > 0 {
        k := Key((k.x + W0) % WORDS, (k.y + W1) % WORDS);
      }
      var high0, low0 := MulHi(M0, c.x), MulLo(M0, c.x);
      var high1, low1 := MulHi(M1, c.z), MulLo(M1, c.z);
      c := Counter(Xor(Xor(high1, c.y), k.x), low1, Xor(Xor(high0, c.w), k.y), low0);
    }
  }

  /** Round n's key: n Weyl steps, the golden ratio's 32 bits and those of the square root of 3 less 1. */
  lemma {:induction false} KeySchedule(k: Key, n: nat)
    ensures RoundKey(k, n) == Key((k.x + n * 2654435769) % WORDS, (k.y + n * 3144134277) % WORDS)
    decreases n
  {
    if n == 0 {
      SmallRemainder(k.x, WORDS);
      SmallRemainder(k.y, WORDS);
    } else {
      KeySchedule(k, n - 1);
      StepWraps(k.x + (n - 1) * 2654435769, 2654435769);
      StepWraps(k.y + (n - 1) * 3144134277, 3144134277);
    }
  }

  lemma StepWraps(a: nat, b: nat)
    ensures (a % WORDS + b) % WORDS == (a + b) % WORDS
  {
  }

  // ----- undoing -----

  function Unround(c: Counter, k: Key): Counter {
    var x, z := MulLo(M0_INVERSE, c.w), MulLo(M1_INVERSE, c.y);
    Counter(x, Xor(MulHi(M1, z), Xor(c.x, k.x)), z, Xor(MulHi(M0, x), Xor(c.z, k.y)))
  }

  /** The last n rounds of the block undone, the latest first. */
  function Unrounds(c: Counter, k: Key, n: nat): Counter
    decreases n
  {
    if n == 0 then c else Unrounds(Unround(c, RoundKey(k, n - 1)), k, n - 1)
  }

  lemma ProductsUndone(x: Word)
    ensures MulLo(M0_INVERSE, MulLo(M0, x)) == x && MulLo(M0, MulLo(M0_INVERSE, x)) == x
    ensures MulLo(M1_INVERSE, MulLo(M1, x)) == x && MulLo(M1, MulLo(M1_INVERSE, x)) == x
  {
    Inverse(M0, M0_INVERSE, x, 2110275209);
    Inverse(M0_INVERSE, M0, x, 2110275209);
    Inverse(M1, M1_INVERSE, x, 1475389199);
    Inverse(M1_INVERSE, M1, x, 1475389199);
  }

  /** A wrapped product by m, then by its inverse: m * inverse is 1 and t times 2^32. */
  lemma Inverse(m: Word, inverse: Word, x: Word, t: int)
    requires inverse * m == 1 + t * WORDS
    ensures MulLo(inverse, MulLo(m, x)) == x
  {
    var q := m * x / WORDS;
    var r := MulLo(m, x);
    assert m * x == q * WORDS + r;
    Regroup(m, inverse, x, t, q, r);
    WrapsTo(inverse * r, x, t * x - q * inverse);
  }

  lemma Regroup(m: int, inverse: int, x: int, t: int, q: int, r: int)
    requires inverse * m == 1 + t * WORDS && m * x == q * WORDS + r
    ensures inverse * r == x + (t * x - q * inverse) * WORDS
  {
    assert inverse * r == inverse * (m * x) - inverse * (q * WORDS);
    assert inverse * (m * x) == (inverse * m) * x;
    assert (1 + t * WORDS) * x == x + t * x * WORDS;
    assert inverse * (q * WORDS) == q * inverse * WORDS;
  }

  lemma WrapsTo(a: int, x: Word, n: int)
    requires a == x + n * WORDS
    ensures a % WORDS == x
  {
  }

  /** Bit by bit: an exclusive or taken twice is undone. */
  lemma {:induction false} XorBitsUndone(n: nat, a: int, b: int)
    requires 0 <= b < Pow2(n)
    ensures XorBits(n, a, XorBits(n, a, b)) == b
    ensures XorBits(n, XorBits(n, b, a), a) == b
  {
    if n > 0 {
      XorBitsUndone(n - 1, a / 2, b / 2);
    }
  }

  lemma XorUndone(a: Word, b: Word)
    ensures Xor(a, Xor(a, b)) == b && Xor(Xor(b, a), a) == b
  {
    hide XorBits;
    WordBits();
    XorBitsUndone(32, a, b);
  }

  /** Both ways: a round is a bijection of the counters, whatever the key. */
  lemma RoundUndone(c: Counter, k: Key)
    ensures Unround(Round(c, k), k) == c
    ensures Round(Unround(c, k), k) == c
  {
    hide MulHi, MulLo, Xor;
    ProductsUndone(c.x);
    ProductsUndone(c.z);
    ProductsUndone(c.y);
    ProductsUndone(c.w);
    HalfUndone(MulHi(M1, c.z), c.y, k.x);
    HalfUndone(MulHi(M0, c.x), c.w, k.y);
    HalfUndone(MulHi(M1, MulLo(M1_INVERSE, c.y)), c.x, k.x);
    HalfUndone(MulHi(M0, MulLo(M0_INVERSE, c.w)), c.z, k.y);
  }

  /** A word mixed with a product's high word and the key, and back. */
  lemma HalfUndone(high: Word, v: Word, k: Word)
    ensures Xor(high, Xor(Xor(Xor(high, v), k), k)) == v
    ensures Xor(Xor(high, Xor(high, Xor(v, k))), k) == v
  {
    hide Xor;
    XorUndone(k, Xor(high, v));
    XorUndone(high, v);
    XorUndone(high, Xor(v, k));
    XorUndone(k, v);
  }

  lemma {:induction false} RoundsUndone(c: Counter, k: Key, n: nat)
    ensures Unrounds(Rounds(c, k, n), k, n) == c
    ensures Rounds(Unrounds(c, k, n), k, n) == c
    decreases n
  {
    hide Round, Unround;
    if n > 0 {
      RoundUndone(Rounds(c, k, n - 1), RoundKey(k, n - 1));
      RoundsUndone(c, k, n - 1);
      RoundsUndone(Unround(c, RoundKey(k, n - 1)), k, n - 1);
      RoundUndone(c, RoundKey(k, n - 1));
    }
  }

  /** Under one key, two counters never give the same block, and every block comes from one. */
  lemma Bijective(a: Counter, b: Counter, k: Key)
    ensures Rounds(a, k, 10) == Rounds(b, k, 10) <==> a == b
    ensures exists c: Counter :: Rounds(c, k, 10) == a
  {
    hide Rounds, Unrounds;
    RoundsUndone(a, k, 10);
    RoundsUndone(b, k, 10);
    assert Rounds(Unrounds(a, k, 10), k, 10) == a;
  }

  // ----- the words of a sample -----

  function Low(x: Wide): Word { x % WORDS }

  function High(x: Wide): Word { x / WORDS }

  /** The counter of four tokens of a row. */
  function CounterOf(group: Word, row: Word, offset: Wide): Counter {
    Counter(group, row, Low(offset), High(offset))
  }

  /** The four words drawn for a group of tokens. */
  function Block(seed: Wide, offset: Wide, row: Word, group: Word): Counter
  {
    Rounds(CounterOf(group, row, offset), Key(Low(seed), High(seed)), 10)
  }

  /** The definition: token i of a row takes word i % 4 of the block i / 4. */
  function WordOf(seed: Wide, offset: Wide, row: nat, i: nat): Word
    requires i < 0x8000_0000 && row < 0x8000_0000
  {
    Block(seed, offset, row, i / 4).At(i % 4)
  }

  lemma HalvesTell(a: Wide, b: Wide)
    ensures Low(a) == Low(b) && High(a) == High(b) <==> a == b
  {
  }

  /** Under one seed, blocks are equal only for the same group, row and offset. */
  lemma BlocksNeverShared(seed: Wide, offset: Wide, row: Word, group: Word, offset': Wide, row': Word, group': Word)
    ensures Block(seed, offset, row, group) == Block(seed, offset', row', group')
       <==> offset == offset' && row == row' && group == group'
  {
    hide Rounds, Low, High;
    Bijective(CounterOf(group, row, offset), CounterOf(group', row', offset'), Key(Low(seed), High(seed)));
    HalvesTell(offset, offset');
  }

  // ----- the noise kernel -----

  /** A thread's write: no other thread may have written the element. */
  method Store(g: array<Option<Word>>, at: nat, word: Word)
    requires at < g.Length && g[at].None?
    modifies g
    ensures g[..] == old(g[..])[at := Some(word)]
  {
    g[at] := Some(word);
  }

  /** Element i of a row of v elements. */
  function Element(g: seq<Option<Word>>, v: nat, row: nat, i: nat): Option<Word> {
    var at := row * v + i;
    if at < |g| then g[at] else None
  }

  lemma RowFits(row: nat, b: nat, v: nat)
    requires row < b
    ensures row * v + v <= b * v
  {
    assert (row + 1) * v <= b * v;
  }

  lemma PlacesApart(row: nat, i: nat, other: nat, k: nat, v: nat)
    requires i < v && k < v && (row != other || i != k)
    ensures row * v + i != other * v + k
  {
    if row < other {
      RowFits(row, other, v);
    } else if other < row {
      RowFits(other, row, v);
    }
  }

  /** One store changes one element. */
  lemma ElementStored(g: seq<Option<Word>>, was: seq<Option<Word>>, v: nat, row: nat, i: nat, x: Option<Word>)
    requires i < v && row * v + i < |was| && g == was[row * v + i := x]
    ensures Element(g, v, row, i) == x
    ensures forall other: nat, k: nat :: k < v && (row != other || i != k) ==>
      Element(g, v, other, k) == Element(was, v, other, k)
  {
    forall other: nat, k: nat | k < v && (row != other || i != k)
      ensures Element(g, v, other, k) == Element(was, v, other, k)
    {
      PlacesApart(row, i, other, k, v);
    }
  }

  function Drawn(seed: Wide, offset: Wide, row: nat, i: nat, yes: bool): Option<Word>
    requires i < 0x8000_0000 && row < 0x8000_0000
  {
    if yes then Some(WordOf(seed, offset, row, i)) else None
  }

  /** The row's elements below `drawn` are drawn and no others. */
  ghost predicate RowDrawn(g: seq<Option<Word>>, v: nat, seed: Wide, offset: Wide, row: nat, drawn: int)
    requires v < 0x8000_0000 && row < 0x8000_0000
  {
    forall i: nat :: i < v ==> Element(g, v, row, i) == Drawn(seed, offset, row, i, i < drawn)
  }

  /** The rows other than `row` hold what they held. */
  ghost predicate OnlyRow(g: seq<Option<Word>>, was: seq<Option<Word>>, v: nat, row: nat) {
    |g| == |was|
    && forall other: nat, i: nat :: other != row && i < v ==>
         Element(g, v, other, i) == Element(was, v, other, i)
  }

  /** Word j of a group's block is the one the definition gives its token j. */
  lemma GroupsWord(seed: Wide, offset: Wide, row: nat, group: nat, j: nat)
    requires row < 0x8000_0000 && group * 4 + j < 0x8000_0000 && j < 4
    ensures WordOf(seed, offset, row, group * 4 + j) == Block(seed, offset, row, group).At(j)
  {
    hide Block;
    assert (group * 4 + j) / 4 == group && (group * 4 + j) % 4 == j;
  }

  /** The next element of the row, stored. */
  lemma RowGrows(g: seq<Option<Word>>, before: seq<Option<Word>>, was: seq<Option<Word>>, v: nat, seed: Wide,
                 offset: Wide, row: nat, i: nat)
    requires v < 0x8000_0000 && row < 0x8000_0000 && i < v && row * v + i < |before|
    requires RowDrawn(before, v, seed, offset, row, i) && OnlyRow(before, was, v, row)
    requires g == before[row * v + i := Some(WordOf(seed, offset, row, i))]
    ensures RowDrawn(g, v, seed, offset, row, i + 1) && OnlyRow(g, was, v, row)
  {
    hide WordOf, Element;
    ElementStored(g, before, v, row, i, Some(WordOf(seed, offset, row, i)));
  }

  /** The row's next element, not yet written, is written. */
  method DrawNext(g: array<Option<Word>>, ghost was: seq<Option<Word>>, v: nat, ghost seed: Wide, ghost offset: Wide,
                  ghost row: nat, ghost i: nat, at: nat, word: Word)
    requires v < 0x8000_0000 && row < 0x8000_0000 && i < v && at == row * v + i < g.Length
    requires word == WordOf(seed, offset, row, i)
    requires RowDrawn(g[..], v, seed, offset, row, i) && OnlyRow(g[..], was, v, row)
    modifies g
    ensures RowDrawn(g[..], v, seed, offset, row, i + 1) && OnlyRow(g[..], was, v, row)
  {
    hide WordOf;
    ghost var before := g[..];
    assert Element(before, v, row, i) == None;
    Store(g, at, word);
    RowGrows(g[..], before, was, v, seed, offset, row, i);
  }

  /** Thread (group, row). */
  method NoiseThread(g: array<Option<Word>>, v: nat, seed: Wide, offset: Wide, row: nat, group: nat)
    requires v < 0x8000_0000 && row < 0x8000_0000 && group * 4 + 4 <= WORDS
    requires row * v + v <= g.Length
    requires RowDrawn(g[..], v, seed, offset, row, group * 4)
    modifies g
    ensures RowDrawn(g[..], v, seed, offset, row, group * 4 + 4)
    ensures OnlyRow(g[..], old(g[..]), v, row)
  {
    hide Rounds, Element, RowDrawn, OnlyRow, WordOf;
    SameRow(g[..], v, row);
    if group * 4 >= v {
      WholeRow(g[..], v, seed, offset, row, group * 4, group * 4 + 4);
      return;
    }
    var counter := Counter(group, row, offset % WORDS, offset / WORDS);
    var words := Generate(counter, Key(seed % WORDS, seed / WORDS));
    var four := [words.x, words.y, words.z, words.w];
    var at := row * v + group * 4;
    var j := 0;
    while j < 4 && group * 4 + j < v
      invariant 0 <= j <= 4
      invariant RowDrawn(g[..], v, seed, offset, row, group * 4 + j)
      invariant OnlyRow(g[..], old(g[..]), v, row)
    {
      GroupsWord(seed, offset, row, group, j);
      DrawNext(g, old(g[..]), v, seed, offset, row, group * 4 + j, at + j, four[j]);
      j := j + 1;
    }
    WholeRow(g[..], v, seed, offset, row, group * 4 + j, group * 4 + 4);
  }

  /** Past the row's end there is nothing to draw. */
  lemma WholeRow(g: seq<Option<Word>>, v: nat, seed: Wide, offset: Wide, row: nat, drawn: int, to: int)
    requires v < 0x8000_0000 && row < 0x8000_0000 && (drawn == to || v <= drawn <= to)
    requires RowDrawn(g, v, seed, offset, row, drawn)
    ensures RowDrawn(g, v, seed, offset, row, to)
  {
    hide WordOf, Element;
  }

  lemma SameRow(g: seq<Option<Word>>, v: nat, row: nat)
    ensures OnlyRow(g, g, v, row)
  {
  }

  /** Every row below `rows` is drawn whole, and no other is begun. */
  ghost predicate RowsDrawn(g: seq<Option<Word>>, b: nat, v: nat, seed: Wide, offset: Wide, rows: nat)
    requires v < 0x8000_0000 && b < 0x8000_0000
  {
    forall row: nat, i: nat :: row < b && i < v ==> Element(g, v, row, i) == Drawn(seed, offset, row, i, row < rows)
  }

  /** The kernel over [b, v]: a grid of every row and of the groups rounded up to a thread group of
      256. Every element of a fresh buffer is written, once, with the word the definition names. */
  method Noise(b: nat, v: nat, seed: Wide, offset: Wide) returns (g: array<Option<Word>>)
    requires b < 0x8000_0000 && 0 < v < 0x8000_0000
    ensures g.Length == b * v
    ensures forall row: nat, i: nat :: row < b && i < v ==>
      Element(g[..], v, row, i) == Some(WordOf(seed, offset, row, i))
  {
    hide WordOf, Element;
    g := new Option<Word>[b * v](_ => None);
    NothingDrawn(g[..], v);
    var width := (((v + 3) / 4) + 255) / 256 * 256;
    for row := 0 to b
      invariant RowsDrawn(g[..], b, v, seed, offset, row)
    {
      RowFits(row, b, v);
      ghost var before := g[..];
      for group := 0 to width
        invariant RowDrawn(g[..], v, seed, offset, row, group * 4)
        invariant OnlyRow(g[..], before, v, row)
      {
        NoiseThread(g, v, seed, offset, row, group);
      }
    }
  }

  lemma NothingDrawn(g: seq<Option<Word>>, v: nat)
    requires forall a :: 0 <= a < |g| ==> g[a] == None
    ensures forall row: nat, i: nat :: Element(g, v, row, i) == None
  {
  }
}
