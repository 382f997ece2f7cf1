/**
 * The signal-strength gauge of the scan list: an averaged RSSI in dBm becomes
 * a five-character bar string, one `|` per twelve dB above -100 dBm, padded
 * with spaces.
 */
module ScanScreen {

  /** Kotlin `coerceIn`: the value clamped into `[lo, hi]`. */
  function CoerceIn(x: int, lo: int, hi: int): (r: int)
    requires lo <= hi
    ensures lo <= r <= hi
    ensures lo <= x <= hi ==> r == x
    ensures x < lo ==> r == lo
    ensures x > hi ==> r == hi
  {
    if x < lo then lo else if x > hi then hi else x
  }

  /** `String.repeat`. */
  function Repeat(c: char, n: nat): (r: string)
    ensures |r| == n
    ensures forall i :: 0 <= i < n ==> r[i] == c
  {
    if n == 0 then [] else Repeat(c, n - 1) + [c]
  }

  /** `String.padEnd`: the string, followed by `c` until it is `n` long. */
  function PadEnd(s: string, n: nat, c: char): (r: string)
    ensures |s| >= n ==> r == s
    ensures |s| < n ==> |r| == n
    ensures r[..|s|] == s
    ensures forall i :: |s| <= i < |r| ==> r[i] == c
  {
    if |s| >= n then s else s + Repeat(c, n - |s|)
  }

  const BarWidth: nat := 5
  const WeakestRssi: int := -100
  const StrongestRssi: int := -40
  const DbPerBar: int := 12

  /** The number of bars: the clamped reading, in steps of twelve dB above the floor. */
  function SignalLevel(rssi: int): (level: nat)
    ensures level <= BarWidth
  {
    var clamped := CoerceIn(rssi, WeakestRssi, StrongestRssi);
    CoerceIn((clamped - WeakestRssi) / DbPerBar, 0, BarWidth)
  }

  /** `rssiBars`. */
  function RssiBars(rssi: int): (bars: string)
    ensures |bars| == BarWidth
  {
    PadEnd(Repeat('|', SignalLevel(rssi)), BarWidth, ' ')
  }

  /** The gauge is always five characters: `level` bars, then spaces. */
  lemma RssiBarsShape(rssi: int)
    ensures var bars := RssiBars(rssi);
      |bars| == BarWidth
      && (forall i :: 0 <= i < SignalLevel(rssi) ==> bars[i] == '|')
      && (forall i :: SignalLevel(rssi) <= i < BarWidth ==> bars[i] == ' ')
  {
    var level := SignalLevel(rssi);
    var bars := RssiBars(rssi);
    var prefix := Repeat('|', level);
    forall i | 0 <= i < level
      ensures bars[i] == '|'
    {
      assert bars[..level] == prefix;
      assert bars[i] == bars[..level][i];
    }
  }

  /**
   * The thresholds: no bar below -88 dBm, then one more bar for every twelve
   * dB, all five from -40 dBm up.
   */
  lemma SignalLevelThresholds(rssi: int)
    ensures SignalLevel(rssi) == 0 <==> rssi < WeakestRssi + DbPerBar
    ensures forall k :: 0 < k < BarWidth ==>
      (SignalLevel(rssi) == k <==> WeakestRssi + DbPerBar * k <= rssi < WeakestRssi + DbPerBar * (k + 1))
    ensures SignalLevel(rssi) == BarWidth <==> rssi >= StrongestRssi
  {
  }

  /** The outer clamp never acts: the clamped reading already yields zero to five bars. */
  lemma InnerClampSuffices(rssi: int)
    ensures SignalLevel(rssi) == (CoerceIn(rssi, WeakestRssi, StrongestRssi) - WeakestRssi) / DbPerBar
  {
  }

  /** A stronger signal never shows fewer bars. */
  lemma SignalLevelMonotone(weaker: int, stronger: int)
    requires weaker <= stronger
    ensures SignalLevel(weaker) <= SignalLevel(stronger)
    ensures forall i :: 0 <= i < BarWidth && RssiBars(weaker)[i] == '|' ==> RssiBars(stronger)[i] == '|'
  {
    var a := CoerceIn(weaker, WeakestRssi, StrongestRssi) - WeakestRssi;
    var b := CoerceIn(stronger, WeakestRssi, StrongestRssi) - WeakestRssi;
    assert 0 <= a <= b;
    assert a / DbPerBar <= b / DbPerBar;
    RssiBarsShape(weaker);
    RssiBarsShape(stronger);
  }
}
