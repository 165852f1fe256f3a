/**
  The names under /media/: which of them are playlists, segments and plain files.
 */
module MediaNames {
  import opened Options
  import opened SegmentNames

  const UPLOAD_PREFIX := "upload://"
  const MAX_INT64 := 0x7fff_ffff_ffff_ffff

  predicate HasPrefix(s: string, prefix: string) {
    |prefix| <= |s| && s[..|prefix|] == prefix
  }

  predicate HasSuffix(s: string, suffix: string) {
    |suffix| <= |s| && s[|s| - |suffix|..] == suffix
  }

  function CutSuffix(s: string, suffix: string): Option<string> {
    if HasSuffix(s, suffix) then Some(s[..|s| - |suffix|]) else None
  }

  /** The position of the first occurrence of `sep`, or the length of `s` when there is none. */
  function Find(s: string, sep: string): (r: nat)
    ensures r <= |s|
    ensures r < |s| ==> HasPrefix(s[r..], sep)
    ensures forall i :: 0 <= i < r ==> !HasPrefix(s[i..], sep)
  {
    if |s| == 0 || HasPrefix(s, sep) then 0
    else
      var rest := Find(s[1..], sep);
      assert forall i :: 1 <= i <= |s| ==> s[i..] == s[1..][i - 1..];
      1 + rest
  }

  predicate ValidMediaID(id: string) {
    && id != ""
    && (forall i :: 0 <= i < |id| ==> id[i] != '/' && id[i] != '\\')
    && (forall i :: 0 <= i < |id| - 1 ==> !(id[i] == '.' && id[i + 1] == '.'))
  }

  predicate IsAround(id: string, a: string, middle: string, b: string) {
    id == a + middle + b
  }

  /** An ID is refused exactly when it is empty or has a slash, a backslash or a double dot in it. */
  lemma InvalidIff(id: string)
    ensures
      !ValidMediaID(id) <==>
        id == "" || exists a, b :: IsAround(id, a, "/", b) || IsAround(id, a, "\\", b) || IsAround(id, a, "..", b)
  {
    if !ValidMediaID(id) && id != "" {
      InvalidSplits(id);
    }
    if a, b :| IsAround(id, a, "/", b) || IsAround(id, a, "\\", b) || IsAround(id, a, "..", b) {
      assert |a| < |id| && (id[|a|] == '/' || id[|a|] == '\\' || (|a| + 1 < |id| && id[|a|] == '.' == id[|a| + 1]));
    }
  }

  lemma InvalidSplits(id: string)
    requires !ValidMediaID(id) && id != ""
    ensures exists a, b :: IsAround(id, a, "/", b) || IsAround(id, a, "\\", b) || IsAround(id, a, "..", b)
  {
    if i :| 0 <= i < |id| && (id[i] == '/' || id[i] == '\\') {
      assert IsAround(id, id[..i], [id[i]], id[i + 1..]);
    } else {
      var i :| 0 <= i < |id| - 1 && id[i] == '.' && id[i + 1] == '.';
      assert IsAround(id, id[..i], "..", id[i + 2..]);
    }
  }

  /** A decimal 64-bit integer with an optional sign; anything else is an error. */
  function ParseInt(s: string): (r: Option<int>)
    ensures r.Some? ==> -MAX_INT64 - 1 <= r.value <= MAX_INT64
  {
    var signed := s != "" && (s[0] == '+' || s[0] == '-');
    var digits := if signed then s[1..] else s;
    if digits == "" || !AllDigits(digits) then None
    else
      var n: int := DigitsValue(digits);
      if signed && s[0] == '-' then (if n > MAX_INT64 + 1 then None else Some(-n))
      else (if n > MAX_INT64 then None else Some(n))
  }

  function PlaylistID(name: string): Option<string> {
    var cut := CutSuffix(name, "/index.m3u8");
    if cut.None? || !ValidMediaID(cut.value) then None else cut
  }

  function SegmentID(name: string): Option<(string, int)> {
    var at := Find(name, "/seg/");
    if at == |name| then None
    else
      var id, rest := name[..at], name[at + 5..];
      if !ValidMediaID(id) || !HasSuffix(rest, ".ts") then None
      else
        var n := ParseInt(rest[..|rest| - 3]);
        if n.None? || n.value < 0 then None else Some((id, n.value))
  }

  /** The plain-file form: a valid key with one of the two extensions. */
  function PlainFile(name: string): Option<(string, string)> {
    var opus, m4a := CutSuffix(name, ".opus"), CutSuffix(name, ".m4a");
    if opus.Some? then (if ValidMediaID(opus.value) then Some((opus.value, ".opus")) else None)
    else if m4a.Some? && ValidMediaID(m4a.value) then Some((m4a.value, ".m4a"))
    else None
  }

  datatype Route =
    | Playlist(id: string)
    | Segment(id: string, index: int)
    | File(key: string, ext: string)
    | NotFound

  /** The dispatch of ServeMedia, in its order. */
  function Dispatch(name: string): Route {
    var playlist, segment, file := PlaylistID(name), SegmentID(name), PlainFile(name);
    if playlist.Some? then Playlist(playlist.value)
    else if segment.Some? then Segment(segment.value.0, segment.value.1)
    else if file.Some? then File(file.value.0, file.value.1)
    else NotFound
  }

  lemma SuffixOfSum(a: string, suffix: string)
    ensures HasSuffix(a + suffix, suffix) && CutSuffix(a + suffix, suffix) == Some(a)
  {
    assert (a + suffix)[|a|..] == suffix && (a + suffix)[..|a|] == a;
  }

  lemma NoSlashNoMatch(s: string, r: nat)
    requires r < |s| && s[r] != '/'
    ensures !HasPrefix(s[r..], "/seg/")
  {
  }

  lemma FirstSlashIsFound(id: string, rest: string)
    requires ValidMediaID(id)
    ensures Find(id + "/seg/" + rest, "/seg/") == |id|
  {
    var s := id + "/seg/" + rest;
    assert s[|id|..] == "/seg/" + rest && ("/seg/" + rest)[..5] == "/seg/";
    assert HasPrefix(s[|id|..], "/seg/");
    var r := Find(s, "/seg/");
    if r < |id| {
      assert s[r] == id[r];
      NoSlashNoMatch(s, r);
      assert false;
    }
  }

  /** The written form of a segment name: a valid ID, "/seg/", a non-negative number and ".ts". */
  ghost predicate IsSegmentName(name: string, id: string, n: int) {
    && ValidMediaID(id) && 0 <= n
    && exists num :: ParseInt(num) == Some(n) && name == id + "/seg/" + (num + ".ts")
  }

  lemma SplitAtSlash(name: string, at: nat)
    requires at < |name| && HasPrefix(name[at..], "/seg/")
    ensures at + 5 <= |name| && name == name[..at] + "/seg/" + name[at + 5..]
  {
  }

  lemma AcceptedIsSegmentName(name: string, id: string, n: int)
    requires SegmentID(name) == Some((id, n))
    ensures IsSegmentName(name, id, n)
  {
    var at := Find(name, "/seg/");
    SplitAtSlash(name, at);
    var rest := name[at + 5..];
    var num := rest[..|rest| - 3];
    assert rest == num + ".ts";
    assert ParseInt(num) == Some(n) && name == id + "/seg/" + (num + ".ts");
  }

  lemma SegmentNameIsAccepted(name: string, id: string, n: int)
    requires IsSegmentName(name, id, n)
    ensures SegmentID(name) == Some((id, n))
  {
    var num :| ParseInt(num) == Some(n) && name == id + "/seg/" + (num + ".ts");
    FirstSlashIsFound(id, num + ".ts");
    assert name[..|id|] == id && name[|id| + 5..] == num + ".ts";
    SuffixOfSum(num, ".ts");
  }

  /** The parser accepts exactly the written form, and reads off the ID and number in it. */
  lemma SegmentNameIff(name: string, id: string, n: int)
    ensures SegmentID(name) == Some((id, n)) <==> IsSegmentName(name, id, n)
  {
    if SegmentID(name) == Some((id, n)) {
      AcceptedIsSegmentName(name, id, n);
    }
    if IsSegmentName(name, id, n) {
      SegmentNameIsAccepted(name, id, n);
    }
  }

  lemma DecimalParses(n: nat)
    requires n <= MAX_INT64
    ensures ParseInt(Decimal(n)) == Some(n)
  {
    DecimalValue(n);
    assert IsDigit(Decimal(n)[0]);
  }

  /** The names the playlist prints come back as the ID and index they were made from. */
  lemma SegmentNameRoundTrip(id: string, n: nat)
    requires ValidMediaID(id) && n <= MAX_INT64
    ensures SegmentID(id + "/seg/" + (Decimal(n) + ".ts")) == Some((id, n))
    ensures Dispatch(id + "/seg/" + (Decimal(n) + ".ts")) == Segment(id, n)
  {
    var name := id + "/seg/" + (Decimal(n) + ".ts");
    DecimalParses(n);
    assert IsSegmentName(name, id, n);
    SegmentNameIsAccepted(name, id, n);
    FormsAreExclusive(name);
  }

  lemma PlaylistNameRoundTrip(id: string)
    requires ValidMediaID(id)
    ensures PlaylistID(id + "/index.m3u8") == Some(id)
    ensures Dispatch(id + "/index.m3u8") == Playlist(id)
  {
    SuffixOfSum(id, "/index.m3u8");
  }

  lemma LastTwo(name: string, suffix: string)
    requires |suffix| >= 2 && HasSuffix(name, suffix)
    ensures name[|name| - 1] == suffix[|suffix| - 1] && name[|name| - 2] == suffix[|suffix| - 2]
  {
  }

  /** No name is accepted by more than one of the three forms, so their order does not matter. */
  lemma FormsAreExclusive(name: string)
    ensures !(PlaylistID(name).Some? && SegmentID(name).Some?)
    ensures !(PlaylistID(name).Some? && PlainFile(name).Some?)
    ensures !(SegmentID(name).Some? && PlainFile(name).Some?)
    ensures PlaylistID(name).Some? <==> Dispatch(name).Playlist? && Dispatch(name).id == PlaylistID(name).value
    ensures SegmentID(name).Some? <==> Dispatch(name).Segment? && (Dispatch(name).id, Dispatch(name).index) == SegmentID(name).value
    ensures PlainFile(name).Some? <==> Dispatch(name).File? && (Dispatch(name).key, Dispatch(name).ext) == PlainFile(name).value
  {
    if PlaylistID(name).Some? { LastTwo(name, "/index.m3u8"); }
    if SegmentID(name).Some? {
      var rest := name[Find(name, "/seg/") + 5..];
      LastTwo(rest, ".ts");
      assert rest[|rest| - 1] == name[|name| - 1] && rest[|rest| - 2] == name[|name| - 2];
    }
    if HasSuffix(name, ".opus") { LastTwo(name, ".opus"); }
    if HasSuffix(name, ".m4a") { LastTwo(name, ".m4a"); }
  }

  lemma PlainNameRoundTrip(key: string)
    requires ValidMediaID(key)
    ensures Dispatch(key + ".opus") == File(key, ".opus")
    ensures Dispatch(key + ".m4a") == File(key, ".m4a")
  {
    SuffixOfSum(key, ".opus");
    SuffixOfSum(key, ".m4a");
    FormsAreExclusive(key + ".opus");
    FormsAreExclusive(key + ".m4a");
    if HasSuffix(key + ".m4a", ".opus") { LastTwo(key + ".m4a", ".opus"); }
  }
}
