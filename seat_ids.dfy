/** Seat identifiers, `"<floor>F-<row>-<area><number>"`, shared by the three floors. */
module SeatIds {
  import opened Wrappers
  import opened Text
  import opened TheaterTypes

  /** `block.area || ''`: the balcony area written before the number, or nothing. */
  function AreaPrefix(area: Option<Area>): string
  {
    match area
    case None => ""
    case Some(LB) => "LB"
    case Some(RB) => "RB"
  }

  /** The id of seat `n` of `row` (in `area`, if any) on `floor`; 1F seats have no area. */
  function SeatIdOf(floor: FloorNumber, row: int, area: Option<Area>, n: int): string
  {
    IntToString(floor) + "F-" + IntToString(row) + "-" + AreaPrefix(area) + IntToString(n)
  }

  lemma DigitsHaveNoDash(s: string)
    requires AllDigits(s)
    ensures '-' !in s
  {
  }

  /** An id is the floor digit, `F-`, then the row's digits, a dash, the area prefix and the number's digits. */
  lemma SeatIdParts(f: FloorNumber, r: nat, a: Option<Area>, n: nat)
    ensures |SeatIdOf(f, r, a, n)| >= 3 && SeatIdOf(f, r, a, n)[0] == DigitChar(f)
    ensures SeatIdOf(f, r, a, n)[3..] == NatToString(r) + "-" + (AreaPrefix(a) + NatToString(n))
  {
    var s := SeatIdOf(f, r, a, n);
    var head := IntToString(f) + "F-";
    assert s == head + (NatToString(r) + "-" + (AreaPrefix(a) + NatToString(n)));
    assert IntToString(f) == [DigitChar(f)];
    assert |head| == 3 && head[0] == DigitChar(f);
  }

  /** The area prefix and the number's digits can be told apart: a digit never starts a prefix. */
  lemma PrefixedNumberInjective(a1: Option<Area>, n1: nat, a2: Option<Area>, n2: nat)
    requires AreaPrefix(a1) + NatToString(n1) == AreaPrefix(a2) + NatToString(n2)
    ensures a1 == a2 && n1 == n2
  {
    var t := AreaPrefix(a1) + NatToString(n1);
    assert IsDigit(NatToString(n1)[0]) && IsDigit(NatToString(n2)[0]);
    assert t[0] == (AreaPrefix(a1) + NatToString(n1))[0] == (AreaPrefix(a2) + NatToString(n2))[0];
    if a1 != a2 {
      assert false;
    }
    assert t[|AreaPrefix(a1)|..] == NatToString(n1);
    assert t[|AreaPrefix(a2)|..] == NatToString(n2);
    NatToStringRoundTrip(n1);
    NatToStringRoundTrip(n2);
  }

  /** Cutting at a dash that neither side contains gives both sides back. */
  lemma SplitAtDashInjective(a1: string, b1: string, a2: string, b2: string)
    requires '-' !in a1 && '-' !in b1 && '-' !in a2 && '-' !in b2
    requires a1 + "-" + b1 == a2 + "-" + b2
    ensures a1 == a2 && b1 == b2
  {
    SplitJoin(a1, '-', b1);
    SplitJoin(a2, '-', b2);
  }

  /**
   * Ids name seats uniquely: two seats with non-negative row and number get the same id only
   * when floor, row, area and number all agree.
   */
  lemma SeatIdInjective(f1: FloorNumber, r1: nat, a1: Option<Area>, n1: nat,
                        f2: FloorNumber, r2: nat, a2: Option<Area>, n2: nat)
    requires SeatIdOf(f1, r1, a1, n1) == SeatIdOf(f2, r2, a2, n2)
    ensures f1 == f2 && r1 == r2 && a1 == a2 && n1 == n2
  {
    SeatIdParts(f1, r1, a1, n1);
    SeatIdParts(f2, r2, a2, n2);
    DigitsHaveNoDash(NatToString(r1));
    DigitsHaveNoDash(NatToString(r2));
    DigitsHaveNoDash(NatToString(n1));
    DigitsHaveNoDash(NatToString(n2));
    SplitAtDashInjective(NatToString(r1), AreaPrefix(a1) + NatToString(n1), NatToString(r2), AreaPrefix(a2) + NatToString(n2));
    NatToStringRoundTrip(r1);
    NatToStringRoundTrip(r2);
    PrefixedNumberInjective(a1, n1, a2, n2);
  }
}
