/**
  Decimal numbers and the keys and file names built from them.
 */
module SegmentNames {
  predicate IsDigit(c: char) {
    '0' <= c <= '9'
  }

  predicate AllDigits(s: string) {
    forall i :: 0 <= i < |s| ==> IsDigit(s[i])
  }

  function DigitChar(d: nat): (c: char)
    requires d < 10
    ensures IsDigit(c) && c as int - '0' as int == d
  {
    ('0' as int + d) as char
  }

  /** The decimal form of a non-negative integer. */
  function Decimal(n: nat): (s: string)
    ensures |s| > 0 && AllDigits(s)
    ensures |s| > 1 ==> s[0] != '0'
    ensures n > 0 ==> s[0] != '0'
  {
    if n < 10 then [DigitChar(n)] else Decimal(n / 10) + [DigitChar(n % 10)]
  }

  /** The value of a digit string, most significant digit first. */
  function DigitsValue(s: string): nat
    requires AllDigits(s)
  {
    if |s| == 0 then 0
    else 10 * DigitsValue(s[..|s| - 1]) + (s[|s| - 1] as int - '0' as int)
  }

  lemma {:induction false} DecimalValue(n: nat)
    ensures DigitsValue(Decimal(n)) == n
  {
    if n < 10 {
      assert Decimal(n)[..0] == "";
    } else {
      DecimalValue(n / 10);
      assert Decimal(n)[..|Decimal(n)| - 1] == Decimal(n / 10);
    }
  }

  lemma DecimalInjective(a: nat, b: nat)
    requires Decimal(a) == Decimal(b)
    ensures a == b
  {
    DecimalValue(a);
    DecimalValue(b);
  }

  /** The decimal form, filled up with zeros to six digits. */
  function Padded(n: nat): (s: string)
    ensures AllDigits(s) && |s| >= 6
  {
    var s := Decimal(n);
    if |s| < 6 then seq(6 - |s|, _ => '0') + s else s
  }

  lemma {:induction false} LeadingZeros(k: nat, s: string)
    requires AllDigits(s)
    ensures AllDigits(seq(k, _ => '0') + s) && DigitsValue(seq(k, _ => '0') + s) == DigitsValue(s)
    decreases |s|, k
  {
    var zeros := seq(k, _ => '0');
    if |s| > 0 {
      LeadingZeros(k, s[..|s| - 1]);
      assert (zeros + s)[..k + |s| - 1] == zeros + s[..|s| - 1];
    } else if k > 0 {
      LeadingZeros(k - 1, s);
      assert (zeros + s)[..k - 1] == seq(k - 1, _ => '0') + s;
    }
  }

  lemma PaddedValue(n: nat)
    ensures DigitsValue(Padded(n)) == n
  {
    DecimalValue(n);
    if |Decimal(n)| < 6 {
      LeadingZeros(6 - |Decimal(n)|, Decimal(n));
    }
  }

  /** Where a segment is kept, below the cache directory. */
  function SegmentPath(track: string, segment: nat): string {
    track + ".hls/seg" + (Padded(segment) + ".ts")
  }

  /** The file a generator writes before it renames it. */
  function TmpPath(track: string, segment: nat): string {
    SegmentPath(track, segment) + ".tmp"
  }

  lemma SlashOfPath(track: string, segment: nat)
    ensures |track| + 4 < |SegmentPath(track, segment)| && SegmentPath(track, segment)[|track| + 4] == '/'
    ensures '/' !in track ==> forall i :: 0 <= i < |track| + 4 ==> SegmentPath(track, segment)[i] != '/'
    ensures SegmentPath(track, segment)[..|track|] == track
    ensures SegmentPath(track, segment)[|track| + 8..] == Padded(segment) + ".ts"
  {
  }

  /** No two segments share a file, nor a temporary one, as long as track IDs hold no slash. */
  lemma PathsDiffer(track1: string, segment1: nat, track2: string, segment2: nat)
    requires '/' !in track1 && '/' !in track2
    requires TmpPath(track1, segment1) == TmpPath(track2, segment2)
    ensures track1 == track2 && segment1 == segment2
  {
    var path1, path2 := SegmentPath(track1, segment1), SegmentPath(track2, segment2);
    assert path1 == TmpPath(track1, segment1)[..|path1|] && path2 == TmpPath(track2, segment2)[..|path2|];
    assert path1 == path2;
    SlashOfPath(track1, segment1);
    SlashOfPath(track2, segment2);
    assert |track1| == |track2|;
    SameTail(Padded(segment1), Padded(segment2));
    PaddedValue(segment1);
    PaddedValue(segment2);
  }

  lemma SameTail(a: string, b: string)
    requires a + ".ts" == b + ".ts"
    ensures a == b
  {
    assert a == (a + ".ts")[..|a|] && b == (b + ".ts")[..|b|];
  }

  /** The key a segment's generation is filed under. */
  function JobKey(track: string, segment: nat): string {
    track + ":" + Decimal(segment)
  }

  lemma ColonIsLast(track: string, segment: nat, i: nat)
    requires |track| < i < |JobKey(track, segment)|
    ensures IsDigit(JobKey(track, segment)[i])
  {
    assert JobKey(track, segment)[i] == Decimal(segment)[i - |track| - 1];
  }

  /** Different segments never share a key, whatever characters the track IDs hold. */
  lemma JobKeyInjective(track1: string, segment1: nat, track2: string, segment2: nat)
    requires JobKey(track1, segment1) == JobKey(track2, segment2)
    ensures track1 == track2 && segment1 == segment2
  {
    var key := JobKey(track1, segment1);
    if |track1| < |track2| {
      ColonIsLast(track1, segment1, |track2|);
    }
    if |track2| < |track1| {
      ColonIsLast(track2, segment2, |track1|);
    }
    assert key[|track1|] == ':' && key[|track2|] == ':';
    assert key[|track1| + 1..] == Decimal(segment1) && key[|track2| + 1..] == Decimal(segment2);
    assert track1 == key[..|track1|] && track2 == key[..|track2|];
    DecimalInjective(segment1, segment2);
  }
}
