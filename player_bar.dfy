/** `msToMinSec`, the player bar's `m:ss` rendering of a position or a
    duration given in milliseconds. */
module PlayerBar {
  import opened Text

  /** Whole seconds in a positive number of milliseconds. */
  function TotalSeconds(ms: real): (total: nat)
    requires ms > 0.0
    ensures total as real <= ms / 1000.0 < total as real + 1.0
  {
    (ms / 1000.0).Floor
  }

  /** Zero and negative inputs read "0:00"; otherwise whole minutes, a
      colon and the remaining seconds as two digits. Minutes are not
      carried into hours. */
  function MsToMinSec(ms: real): (r: string)
    ensures ms <= 0.0 ==> r == "0:00"
  {
    if ms <= 0.0 then "0:00"
    else
      var total := TotalSeconds(ms);
      NatToString(total / 60) + ":" + PadStart(NatToString(total % 60), 2, '0')
  }

  /** A number below 60 padded to two digits reads back as itself. */
  lemma {:induction false} TwoDigits(s: nat)
    requires s < 60
    ensures var p := PadStart(NatToString(s), 2, '0');
      |p| == 2 && AllDigits(p) && ParseDigits(p) == s
  {
    var p := PadStart(NatToString(s), 2, '0');
    ParseNatToString(s);
    if s < 10 {
      assert p == ['0', DigitChar(s)];
      assert p[..1] == "0";
    } else {
      assert NatToString(s) == [DigitChar(s / 10)] + [DigitChar(s % 10)];
      assert p == NatToString(s);
    }
  }

  /** For a positive input the text is `m:ss` with `ss` two digits from 00
      to 59, and `m * 60 + ss` is the whole number of seconds. */
  lemma MsToMinSecDecodes(ms: real)
    requires ms > 0.0
    ensures var r := MsToMinSec(ms);
      |r| >= 4 && r[|r| - 3] == ':'
      && AllDigits(r[..|r| - 3]) && AllDigits(r[|r| - 2..])
      && ParseDigits(r[|r| - 2..]) < 60
      && ParseDigits(r[..|r| - 3]) * 60 + ParseDigits(r[|r| - 2..]) == TotalSeconds(ms)
  {
    var total := TotalSeconds(ms);
    var m := NatToString(total / 60);
    var ss := PadStart(NatToString(total % 60), 2, '0');
    TwoDigits(total % 60);
    ParseNatToString(total / 60);
    var r := MsToMinSec(ms);
    assert r == m + ":" + ss;
    assert r[..|r| - 3] == m;
    assert r[|r| - 2..] == ss;
  }

  /** Anything under a second reads "0:00" as well. */
  lemma UnderASecond(ms: real)
    requires 0.0 < ms < 1000.0
    ensures MsToMinSec(ms) == "0:00"
  {
    assert TotalSeconds(ms) == 0;
    TwoDigits(0);
  }
}
