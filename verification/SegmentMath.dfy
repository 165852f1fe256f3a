/**
  How a track is cut into HLS segments: the playlist writer, the index check of the segment
  handler and the start and length the generator asks for.
 */
module SegmentMath {
  import opened Options
  import opened SegmentNames
  import opened MediaNames

  const SEGMENT_MS := 6000

  function SegmentCount(durationMs: int): int {
    (durationMs + SEGMENT_MS - 1) / SEGMENT_MS
  }

  /** The length the playlist prints for entry `i`. */
  function ListedMs(durationMs: int, i: int): int {
    var remain := durationMs - i * SEGMENT_MS;
    if remain < SEGMENT_MS then remain else SEGMENT_MS
  }

  /** The start and length the generator cuts for a segment. */
  function GeneratedSpan(durationMs: int, segment: int): (int, int) {
    var startMs := segment * SEGMENT_MS;
    var remain := durationMs - startMs;
    (startMs, if remain < SEGMENT_MS then remain else SEGMENT_MS)
  }

  /** A track the pipeline knows, as far as both handlers look at it. */
  datatype Listing = Listing(sourceURL: string, durationMs: int)

  /** What both handlers ask of a track: known, of positive duration and no upload. */
  predicate Segmented(track: Option<Listing>) {
    track.Some? && track.value.durationMs > 0 && !HasPrefix(track.value.sourceURL, UPLOAD_PREFIX)
  }

  /** The segment handler's index check. */
  predicate Accepted(durationMs: int, segment: int) {
    durationMs > 0 && 0 <= segment < SegmentCount(durationMs)
  }

  /** The total length of the first `n` listed segments. */
  function ListedTotal(durationMs: int, n: nat): int {
    if n == 0 then 0 else ListedTotal(durationMs, n - 1) + ListedMs(durationMs, n - 1)
  }

  lemma CountBounds(durationMs: int)
    requires durationMs > 0
    ensures 0 < SegmentCount(durationMs)
    ensures (SegmentCount(durationMs) - 1) * 6000 < durationMs <= SegmentCount(durationMs) * 6000
  {
  }

  lemma {:induction false} TotalSoFar(durationMs: int, n: nat)
    requires durationMs > 0 && n <= SegmentCount(durationMs)
    ensures ListedTotal(durationMs, n) == if n < SegmentCount(durationMs) then n * 6000 else durationMs
  {
    CountBounds(durationMs);
    if n > 0 {
      TotalSoFar(durationMs, n - 1);
    }
  }

  /**
    The segments tile the track: every millisecond of it lies in exactly one accepted segment,
    as listed and as generated alike; lengths are in (0, 6000] ms and add up to the duration;
    and a segment is accepted exactly when it starts inside the track.
   */
  lemma SegmentsTileTrack(durationMs: int)
    requires durationMs > 0
    ensures forall i :: Accepted(durationMs, i) ==>
      && GeneratedSpan(durationMs, i) == (i * 6000, ListedMs(durationMs, i))
      && 0 < ListedMs(durationMs, i) <= 6000
      && GeneratedSpan(durationMs, i).0 + GeneratedSpan(durationMs, i).1 <= durationMs
    ensures forall i :: Accepted(durationMs, i) <==> 0 <= i && GeneratedSpan(durationMs, i).0 < durationMs
    ensures forall t :: 0 <= t < durationMs ==> Accepted(durationMs, t / 6000) && Covers(durationMs, t / 6000, t)
    ensures forall i, t :: Accepted(durationMs, i) && Covers(durationMs, i, t) ==> i == t / 6000
    ensures ListedTotal(durationMs, SegmentCount(durationMs)) == durationMs
  {
    CountBounds(durationMs);
    TotalSoFar(durationMs, SegmentCount(durationMs));
  }

  predicate Covers(durationMs: int, i: int, t: int) {
    var span := GeneratedSpan(durationMs, i);
    span.0 <= t < span.0 + span.1
  }

  /** Section 4.3.3.1 of RFC 8216: no listed length, rounded to whole seconds, exceeds the target. */
  lemma RoundedLengthsMeetTarget(durationMs: int, i: int)
    requires Accepted(durationMs, i)
    ensures (ListedMs(durationMs, i) + 500) / 1000 <= TargetSeconds()
  {
    SegmentsTileTrack(durationMs);
  }

  function TargetSeconds(): int {
    (SEGMENT_MS + 999) / 1000
  }

  /** A number below a thousand in three digits. */
  function Places(rest: nat): string
    requires rest < 1000
  {
    [DigitChar(rest / 100), DigitChar(rest % 100 / 10), DigitChar(rest % 10)]
  }

  /** Milliseconds as seconds with three decimals. */
  function Seconds(ms: nat): string {
    Decimal(ms / 1000) + "." + Places(ms % 1000)
  }

  /** The printed seconds are exact: the digits before and after the point give back the milliseconds. */
  lemma SecondsAreExact(ms: nat)
    ensures
      exists whole, part ::
        && Seconds(ms) == whole + "." + part && |part| == 3 && |whole| > 0
        && AllDigits(whole) && AllDigits(part)
        && 1000 * DigitsValue(whole) + DigitsValue(part) == ms
  {
    DecimalValue(ms / 1000);
    ThreePlaces(ms % 1000);
    assert Seconds(ms) == Decimal(ms / 1000) + "." + Places(ms % 1000);
  }

  lemma ThreePlaces(rest: nat)
    requires rest < 1000
    ensures AllDigits(Places(rest)) && DigitsValue(Places(rest)) == rest
  {
    ThreeDigits(rest / 100, rest % 100 / 10, rest % 10);
  }

  lemma ThreeDigits(a: nat, b: nat, c: nat)
    requires a < 10 && b < 10 && c < 10
    ensures DigitsValue([DigitChar(a), DigitChar(b), DigitChar(c)]) == 100 * a + 10 * b + c
  {
    var one, two := [DigitChar(a)], [DigitChar(a), DigitChar(b)];
    var three := two + [DigitChar(c)];
    assert one[..0] == [] && two[..1] == one && three[..2] == two;
    assert DigitsValue(one) == a;
    assert DigitsValue(two) == 10 * a + b;
    assert DigitsValue(three) == 10 * DigitsValue(two) + c;
    assert three == [DigitChar(a), DigitChar(b), DigitChar(c)];
  }

  /** The two lines of one playlist entry; the writer ends every line with a newline. */
  function Entry(i: nat, ms: nat): seq<string> {
    ["#EXTINF:" + Seconds(ms) + ",", "seg/" + Decimal(i) + ".ts"]
  }

  /** The entries of segments 0 to `n`, in order, each with its listed length. */
  function Entries(durationMs: int, n: nat): seq<string>
    requires durationMs > 0 && n <= SegmentCount(durationMs)
  {
    if n == 0 then []
    else
      CountBounds(durationMs);
      Entries(durationMs, n - 1) + Entry(n - 1, ListedMs(durationMs, n - 1))
  }

  function Header(): seq<string> {
    ["#EXTM3U", "#EXT-X-VERSION:3", "#EXT-X-INDEPENDENT-SEGMENTS", "#EXT-X-PLAYLIST-TYPE:VOD",
     "#EXT-X-TARGETDURATION:" + Decimal(TargetSeconds()), "#EXT-X-MEDIA-SEQUENCE:0"]
  }

  /** The playlist handler: one entry for each accepted segment, in order, or a 404. */
  method ServePlaylist(track: Option<Listing>) returns (page: Option<seq<string>>)
    ensures page.Some? <==> Segmented(track)
    ensures
      page.Some? ==>
        var durationMs := track.value.durationMs;
        page.value == Header() + Entries(durationMs, SegmentCount(durationMs)) + ["#EXT-X-ENDLIST"]
  {
    if track.None? || track.value.durationMs <= 0 || HasPrefix(track.value.sourceURL, UPLOAD_PREFIX) {
      return None;
    }
    var entries := WriteEntries(track.value.durationMs);
    return Some(Header() + entries + ["#EXT-X-ENDLIST"]);
  }

  /** The loop over the segments. */
  method WriteEntries(durationMs: int) returns (entries: seq<string>)
    requires durationMs > 0
    ensures entries == Entries(durationMs, SegmentCount(durationMs))
  {
    CountBounds(durationMs);
    var count := (durationMs + SEGMENT_MS - 1) / SEGMENT_MS;
    entries := [];
    var i := 0;
    while i < count
      invariant 0 <= i <= count
      invariant entries == Entries(durationMs, i)
    {
      var dur := SEGMENT_MS;
      var remain := durationMs - i * SEGMENT_MS;
      if remain < dur {
        dur := remain;
      }
      entries := entries + Entry(i, dur);
      i := i + 1;
    }
  }

  /**
    The segment handler: the file it serves, or a 404. Whether the file is there already, whether
    generating it succeeds and whether it then opens are up to the environment.
   */
  method ServeSegment(id: string, track: Option<Listing>, segment: int, there: bool, generated: bool, readable: bool)
    returns (path: Option<string>)
    ensures path.Some? <==>
              Segmented(track) && Accepted(track.value.durationMs, segment) && (there || generated) && readable
    ensures path.Some? ==> segment >= 0 && path.value == SegmentPath(id, segment)
  {
    if track.None? || track.value.durationMs <= 0 || HasPrefix(track.value.sourceURL, UPLOAD_PREFIX) {
      return None;
    }
    var count := (track.value.durationMs + SEGMENT_MS - 1) / SEGMENT_MS;
    if segment < 0 || segment >= count {
      return None;
    }
    if !there && !generated {
      return None;
    }
    if !readable {
      return None;
    }
    return Some(SegmentPath(id, segment));
  }

  lemma {:induction false} EntriesLength(durationMs: int, n: nat)
    requires durationMs > 0 && n <= SegmentCount(durationMs)
    ensures |Entries(durationMs, n)| == 2 * n
    decreases n
  {
    if n > 0 {
      EntriesLength(durationMs, n - 1);
    }
  }

  /** Entry `i` of the playlist is the two lines of segment `i`. */
  lemma {:induction false} EntriesListSegments(durationMs: int, n: nat, i: nat)
    requires durationMs > 0 && i < n <= SegmentCount(durationMs)
    ensures |Entries(durationMs, n)| == 2 * n
    ensures Accepted(durationMs, i)
    ensures ListedMs(durationMs, i) >= 0
    ensures Entries(durationMs, n)[2 * i..2 * i + 2] == Entry(i, ListedMs(durationMs, i))
    decreases n
  {
    EntriesLength(durationMs, n);
    EntriesLength(durationMs, n - 1);
    SegmentsTileTrack(durationMs);
    var front, last := Entries(durationMs, n - 1), Entry(n - 1, ListedMs(durationMs, n - 1));
    assert Entries(durationMs, n) == front + last;
    if i < n - 1 {
      EntriesListSegments(durationMs, n - 1, i);
      assert (front + last)[2 * i..2 * i + 2] == front[2 * i..2 * i + 2];
    } else {
      assert (front + last)[2 * i..] == last;
    }
  }

  /**
    The playlist lists what the segment handler serves: the address of each entry, taken relative
    to the playlist of a valid ID, is dispatched to that segment of that ID, which is accepted.
   */
  lemma ListedNamesAreServed(id: string, durationMs: int, i: nat)
    requires ValidMediaID(id) && 0 < durationMs <= MAX_INT64 && i < SegmentCount(durationMs)
    ensures Accepted(durationMs, i) && ListedMs(durationMs, i) >= 0
    ensures Dispatch(id + "/" + Entry(i, ListedMs(durationMs, i))[1]) == Segment(id, i)
  {
    SegmentsTileTrack(durationMs);
    CountFits(durationMs, i);
    SegmentNameRoundTrip(id, i);
    AddressJoins(id, Decimal(i));
  }

  /** The length an entry announces is exactly the segment's. */
  lemma EntryTellsLength(i: nat, ms: nat)
    ensures
      exists whole, part ::
        && Entry(i, ms)[0] == "#EXTINF:" + (whole + "." + part) + "," && |part| == 3
        && AllDigits(whole) && AllDigits(part)
        && 1000 * DigitsValue(whole) + DigitsValue(part) == ms
  {
    SecondsAreExact(ms);
  }

  lemma CountFits(durationMs: int, i: nat)
    requires 0 < durationMs <= MAX_INT64 && i < SegmentCount(durationMs)
    ensures i <= MAX_INT64
  {
  }

  lemma AddressJoins(id: string, number: string)
    ensures id + "/" + ("seg/" + number + ".ts") == id + "/seg/" + (number + ".ts")
  {
    assert "/" + "seg/" == "/seg/";
  }

  /** The target is no larger than a listed segment needs. */
  lemma TargetIsReached(durationMs: int)
    requires durationMs >= 6000
    ensures Accepted(durationMs, 0) && (ListedMs(durationMs, 0) + 500) / 1000 == TargetSeconds()
  {
    SegmentsTileTrack(durationMs);
  }
}
