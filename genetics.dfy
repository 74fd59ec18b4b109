/** Kitty DNA and the byte-wise combination `breed` uses in every version of the pallet. */
module Genetics {

  const DNA_LEN: nat := 16

  /** `[u8; 16]` */
  type Dna = s: seq<bv8> | |s| == 16 witness [0, 0, 0, 0, 0, 0, 0, 0, 0, 0, 0, 0, 0, 0, 0, 0]

  /** Reference definition of a child's DNA: a bit is set exactly when the selector
      has it and at least one parent has it. */
  function ChildDna(dna1: Dna, dna2: Dna, selector: Dna): Dna
  {
    seq(DNA_LEN, i requires 0 <= i < DNA_LEN => (dna1[i] | dna2[i]) & selector[i])
  }

  /** The loop in `breed`: `data[i] = (dna1[i] & selector[i]) | (dna2[i] & selector[i])`
      over a zeroed 16-byte buffer. */
  method Combine(dna1: Dna, dna2: Dna, selector: Dna) returns (child: Dna)
    ensures child == ChildDna(dna1, dna2, selector)
  {
    var data := new bv8[DNA_LEN](_ => 0);
    for i := 0 to DNA_LEN
      invariant forall j :: 0 <= j < i ==> data[j] == ChildDna(dna1, dna2, selector)[j]
    {
      data[i] := (dna1[i] & selector[i]) | (dna2[i] & selector[i]);
    }
    child := data[..];
  }

  /** Every bit of the child is a bit of the selector and a bit of one of the parents. */
  lemma ChildBitsBounded(dna1: Dna, dna2: Dna, selector: Dna, i: nat)
    requires i < DNA_LEN
    ensures ChildDna(dna1, dna2, selector)[i] & !selector[i] == 0
    ensures ChildDna(dna1, dna2, selector)[i] & !(dna1[i] | dna2[i]) == 0
  {
  }

  /** The combination does not depend on which parent comes first. */
  lemma {:induction false} ChildDnaSymmetric(dna1: Dna, dna2: Dna, selector: Dna)
    ensures ChildDna(dna1, dna2, selector) == ChildDna(dna2, dna1, selector)
  {
    forall i | 0 <= i < DNA_LEN
      ensures ChildDna(dna1, dna2, selector)[i] == ChildDna(dna2, dna1, selector)[i]
    {
      assert dna1[i] | dna2[i] == dna2[i] | dna1[i];
    }
  }

  /** Where the selector has a zero byte the child has a zero byte, whatever the
      parents: the case of `ChildBitsBounded` where `!selector[i]` is all ones. */
  lemma ChildMaskedBySelector(dna1: Dna, dna2: Dna, selector: Dna, i: nat)
    requires i < DNA_LEN && selector[i] == 0
    ensures ChildDna(dna1, dna2, selector)[i] == 0
  {
    ChildBitsBounded(dna1, dna2, selector, i);
  }
}
