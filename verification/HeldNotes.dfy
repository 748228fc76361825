/**
 The keys the host holds down, packed into two 64-bit words, and why the packing
 is the same thing as a set of notes 0..127.
 */
module HeldNotes {
  const NOTES: nat := 128

  function Double(x: bv64): bv64 {
    x << 1
  }

  function Both(x: bv64, y: bv64): bv64 {
    x & y
  }

  /** `1 << i`, one position at a time. */
  function Mask(i: nat): bv64 {
    if i == 0 then 1 else Double(Mask(i - 1))
  }

  predicate Bit(word: bv64, i: nat) {
    Both(word, Mask(i)) != 0
  }

  function SetBit(word: bv64, i: nat, on: bool): bv64 {
    Write(word, Mask(i), on)
  }

  function Write(word: bv64, mask: bv64, on: bool): bv64 {
    if on then word | mask else word & !mask
  }

  /** The notes two packed words stand for. */
  function Unpack(words: seq<bv64>): set<nat>
    requires |words| == 2
  {
    set n | 0 <= n < NOTES && Bit(words[n / 64], n % 64)
  }

  lemma DoubleKeepsApart(x: bv64, y: bv64)
    requires Both(x, y) == 0
    ensures Both(Double(x), Double(y)) == 0
  {
  }

  lemma DoubleIsEven(y: bv64)
    ensures Both(1, Double(y)) == 0 && Both(Double(y), 1) == 0
  {
  }

  lemma {:induction false} MasksAreDisjoint(i: nat, j: nat)
    requires i != j
    ensures Both(Mask(i), Mask(j)) == 0
  {
    if i == 0 {
      DoubleIsEven(Mask(j - 1));
    } else if j == 0 {
      DoubleIsEven(Mask(i - 1));
    } else {
      MasksAreDisjoint(i - 1, j - 1);
      DoubleKeepsApart(Mask(i - 1), Mask(j - 1));
    }
  }

  function Triple(x: bv64): bv64 {
    Double(Double(Double(x)))
  }

  function Quad(x: bv64): bv64 {
    Double(Triple(x))
  }

  lemma ThreeUp(i: nat)
    ensures Mask(i + 3) == Triple(Mask(i))
  {
    assert Mask(i + 3) == Double(Mask(i + 2));
    assert Mask(i + 2) == Double(Mask(i + 1));
    assert Mask(i + 1) == Double(Mask(i));
  }

  lemma EightUp(i: nat)
    ensures Mask(i + 8) == Quad(Quad(Mask(i)))
  {
    ThreeUp(i);
    assert Mask(i + 4) == Double(Mask(i + 3));
    ThreeUp(i + 4);
    assert Mask(i + 8) == Double(Mask(i + 7));
  }

  lemma TopMask()
    ensures Mask(63) == 0x8000_0000_0000_0000
  {
    EightUp(0);
    EightUp(8);
    EightUp(16);
    EightUp(24);
    EightUp(32);
    EightUp(40);
    EightUp(48);
    assert Mask(56) == 0x100_0000_0000_0000;
    ThreeUp(56);
    assert Mask(60) == Double(Mask(59));
    ThreeUp(60);
  }

  /** No mask is shifted out of the word: downward from the top bit, which is computed. */
  lemma {:induction false} MaskIsNonZero(i: nat)
    requires i < 64
    ensures Mask(i) != 0
    decreases 64 - i
  {
    if i < 63 {
      MaskIsNonZero(i + 1);
    } else {
      TopMask();
    }
  }

  lemma OtherBitKept(word: bv64, m: bv64, k: bv64, on: bool)
    requires Both(m, k) == 0
    ensures Both(Write(word, m, on), k) == Both(word, k)
  {
  }

  lemma OwnBitSet(word: bv64, m: bv64, on: bool)
    ensures Both(Write(word, m, on), m) == if on then m else 0
  {
  }

  lemma SetBitReads(word: bv64, i: nat, j: nat, on: bool)
    requires i < 64 && j < 64
    ensures Bit(SetBit(word, i, on), j) <==> if i == j then on else Bit(word, j)
  {
    MaskIsNonZero(i);
    if i == j {
      OwnBitSet(word, Mask(i), on);
    } else {
      MasksAreDisjoint(i, j);
      OtherBitKept(word, Mask(i), Mask(j), on);
    }
  }

  /** Writing one bit adds or removes exactly one note. */
  lemma PackedUpdate(words: seq<bv64>, note: nat, on: bool)
    requires |words| == 2 && note < NOTES
    ensures var words' := words[note / 64 := SetBit(words[note / 64], note % 64, on)];
            Unpack(words') == if on then Unpack(words) + {note} else Unpack(words) - {note}
  {
    var words' := words[note / 64 := SetBit(words[note / 64], note % 64, on)];
    forall n | 0 <= n < NOTES
      ensures n in Unpack(words') <==> if n == note then on else n in Unpack(words)
    {
      if n / 64 == note / 64 {
        SetBitReads(words[note / 64], note % 64, n % 64, on);
      }
    }
    assert forall n :: n in Unpack(words') ==> n < NOTES;
    assert forall n :: n in Unpack(words) ==> n < NOTES;
  }

  lemma NoBits(m: bv64)
    ensures Both(0, m) == 0
  {
  }

  lemma NothingHeld()
    ensures Unpack([0, 0]) == {}
  {
    forall n | 0 <= n < NOTES ensures n !in Unpack([0, 0]) {
      NoBits(Mask(n % 64));
    }
  }
}
