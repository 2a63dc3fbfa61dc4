/** Eight-bit button masks, as the `uint8_t` fields of the C structures hold them. */
module Masks {

  const BUTTONS := 5

  // 0x1f: the five buttons of the mouse.
  const ALL_BUTTONS: bv8 := 0x1f

  type Button = i: nat | i < BUTTONS

  function BitMask(i: nat): (m: bv8)
    requires i < 8
  {
    if i == 0 then 1 else if i == 1 then 2 else if i == 2 then 4 else if i == 3 then 8
    else if i == 4 then 16 else if i == 5 then 32 else if i == 6 then 64 else 128
  }

  predicate Has(m: bv8, i: nat)
    requires i < 8
  {
    m & BitMask(i) != 0
  }

  lemma HasOr(a: bv8, b: bv8, i: nat)
    requires i < 8
    ensures Has(a | b, i) <==> Has(a, i) || Has(b, i)
  {
  }

  lemma HasAnd(a: bv8, b: bv8, i: nat)
    requires i < 8
    ensures Has(a & b, i) <==> Has(a, i) && Has(b, i)
  {
  }

  lemma HasAll(i: Button)
    ensures Has(ALL_BUTTONS, i) && !Has(0, i)
  {
  }

  lemma HasAllExactly(m: bv8)
    ensures m & ALL_BUTTONS == ALL_BUTTONS <==> forall i: Button :: Has(m, i)
  {
    if forall i: Button :: Has(m, i) {
      assert Has(m, 0) && Has(m, 1) && Has(m, 2) && Has(m, 3) && Has(m, 4);
    } else {
      var i: Button :| !Has(m, i);
      HasAnd(m, ALL_BUTTONS, i);
      HasAll(i);
    }
  }
}
