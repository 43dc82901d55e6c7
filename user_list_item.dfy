/**
 * A row of the user list: its two-character position label and its click
 * handler.
 */
module UserListRow {
  import opened Domain
  import opened Decimal

  /** `n.toString()` for an integer: a minus sign before the digits of a negative one. */
  function IntToString(n: int): (s: string)
    ensures n >= 0 ==> s == NatToString(n)
    ensures n < 0 ==> |s| >= 2 && s[0] == '-' && s[1..] == NatToString(-n)
  {
    if n >= 0 then NatToString(n) else "-" + NatToString(-n)
  }

  /** `s.padStart(width, [fill])`: `fill` repeated in front of `s` up to `width` characters. */
  function PadStart(s: string, width: nat, fill: char): (r: string)
    ensures |r| == Max(width, |s|)
    ensures r[|r| - |s|..] == s
    ensures forall i :: 0 <= i < |r| - |s| ==> r[i] == fill
    decreases width - |s|
  {
    if |s| >= width then s
    else
      var r := PadStart([fill] + s, width, fill);
      assert r[|r| - |s|..] == ([fill] + s)[1..];
      r
  }

  /**
   * `getPositionString`: the position's `toString` padded on the left with
   * '0' to two characters; a longer string is kept whole.
   */
  function PositionString(pos: int): (s: string)
    ensures s == PadStart(IntToString(pos), 2, '0')
    ensures |s| == Max(2, |IntToString(pos)|)
    ensures s[|s| - |IntToString(pos)|..] == IntToString(pos)
    ensures forall i :: 0 <= i < |s| - |IntToString(pos)| ==> s[i] == '0'
  {
    PadStart(IntToString(pos), 2, '0')
  }

  /** A one-digit position gets a leading zero. */
  lemma SingleDigitPadded(pos: int)
    requires 0 <= pos <= 9
    ensures PositionString(pos) == ['0', DigitChar(pos)]
  {
    var r := PositionString(pos);
    assert NatToString(pos) == [DigitChar(pos)];
    assert r[1..] == [DigitChar(pos)];
  }

  /** A position of two or more digits, or a negative one, is shown as `toString` gives it. */
  lemma WideUnpadded(pos: int)
    requires pos >= 10 || pos < 0
    ensures PositionString(pos) == IntToString(pos)
    ensures pos >= 10 ==> PositionString(pos) == NatToString(pos)
  {
    if pos >= 10 {
      NatToStringLength(pos);
      assert NumDigits(pos) >= 2;
    }
  }

  /** The label has max(2, digits) characters and reads back as the position. */
  lemma PositionRoundTrip(pos: nat)
    ensures |PositionString(pos)| == Max(2, NumDigits(pos))
    ensures IsDigits(PositionString(pos)) && ParseDecimal(PositionString(pos)) == pos
  {
    NatToStringLength(pos);
    ParseNatToString(pos);
    if pos <= 9 {
      SingleDigitPadded(pos);
      assert PositionString(pos) == "0" + NatToString(pos);
      ParseLeadingZero(NatToString(pos));
    } else {
      WideUnpadded(pos);
    }
  }

  /** An `onClick` callback, told apart by name. */
  datatype Handler = Handler(name: string)

  class UserListItem {
    const onClick: Option<Handler>
    /** The callbacks invoked so far, in order. */
    var invoked: seq<Handler>

    constructor(onClick: Option<Handler>)
      ensures this.onClick == onClick && invoked == []
    {
      this.onClick := onClick;
      invoked := [];
    }

    /** `handleClick`: the callback runs once per click when it is given; otherwise nothing happens. */
    method HandleClick()
      modifies this
      ensures invoked == old(invoked) + (if onClick.Some? then [onClick.value] else [])
    {
      if onClick.Some? {
        invoked := invoked + [onClick.value];
      }
    }
  }
}
