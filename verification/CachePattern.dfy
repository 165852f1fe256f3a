/**
  Which cached files a deletion removes. The ID is followed by a star and used as a path pattern
  below the cache directory, so its own special characters and slashes count.
 */
module CachePattern {
  import opened Options
  import opened MediaNames

  /** One term of a pattern for a file name. */
  datatype Term =
    | Star
    | AnyChar
    | OneOf(negated: bool, ranges: seq<(char, char)>)
    | Exactly(c: char)

  /** A character of a class, which may be escaped and is never the last of the pattern. */
  function ParseChar(p: string): (r: Option<(char, string)>)
    ensures r.Some? ==> 0 < |r.value.1| < |p|
  {
    if p == "" || p[0] == '-' || p[0] == ']' then None
    else
      var q := if p[0] == '\\' then p[1..] else p;
      if |q| < 2 then None else Some((q[0], q[1..]))
  }

  /** The ranges of a class up to its closing bracket, at least one. */
  function ParseRanges(p: string, first: bool): (r: Option<(seq<(char, char)>, string)>)
    ensures r.Some? ==> |r.value.1| < |p|
    decreases |p|
  {
    if p != "" && p[0] == ']' && !first then Some(([], p[1..]))
    else
      var lo := ParseChar(p);
      if lo.None? then None
      else
        var hi := if lo.value.1[0] == '-' then ParseChar(lo.value.1[1..]) else lo;
        if hi.None? then None
        else
          var rest := ParseRanges(hi.value.1, false);
          if rest.None? then None else Some(([(lo.value.0, hi.value.0)] + rest.value.0, rest.value.1))
  }

  function Before(t: Term, rest: Option<seq<Term>>): Option<seq<Term>> {
    if rest.None? then None else Some([t] + rest.value)
  }

  /** The terms of a pattern, or nothing for a malformed one. */
  function Parse(p: string): Option<seq<Term>>
    decreases |p|
  {
    if p == "" then Some([])
    else if p[0] == '*' then Before(Star, Parse(p[1..]))
    else if p[0] == '?' then Before(AnyChar, Parse(p[1..]))
    else if p[0] == '\\' then (if |p| == 1 then None else Before(Exactly(p[1]), Parse(p[2..])))
    else if p[0] == '[' then
      var negated := |p| > 1 && p[1] == '^';
      var ranges := ParseRanges(if negated then p[2..] else p[1..], true);
      if ranges.None? then None else Before(OneOf(negated, ranges.value.0), Parse(ranges.value.1))
    else Before(Exactly(p[0]), Parse(p[1..]))
  }

  predicate Accepts(t: Term, c: char) {
    match t
    case Star => false
    case AnyChar => c != '/'
    case OneOf(negated, ranges) => negated != exists i :: 0 <= i < |ranges| && ranges[i].0 <= c <= ranges[i].1
    case Exactly(d) => c == d
  }

  predicate Matches(terms: seq<Term>, name: string)
    decreases |terms| + |name|
  {
    if |terms| == 0 then name == ""
    else if terms[0].Star? then
      Matches(terms[1..], name) || (name != "" && name[0] != '/' && Matches(terms, name[1..]))
    else name != "" && Accepts(terms[0], name[0]) && Matches(terms[1..], name[1..])
  }

  predicate Globs(pattern: string, name: string) {
    Parse(pattern).Some? && Matches(Parse(pattern).value, name)
  }

  /** The parts of a path between its slashes. */
  function Split(s: string): (parts: seq<string>)
    ensures |parts| > 0
  {
    if s == "" then [""]
    else
      var rest := Split(s[1..]);
      if s[0] == '/' then [""] + rest else [[s[0]] + rest[0]] + rest[1..]
  }

  /** An absolute path extended part by part, without empty and dot parts. */
  function Clean(path: seq<string>, parts: seq<string>): seq<string>
    decreases |parts|
  {
    if |parts| == 0 then path
    else if parts[0] == "" || parts[0] == "." then Clean(path, parts[1..])
    else if parts[0] == ".." then Clean(if |path| == 0 then path else path[..|path| - 1], parts[1..])
    else Clean(path + [parts[0]], parts[1..])
  }

  function PatternOf(dir: seq<string>, id: string): seq<string> {
    Clean(dir, Split(id + "*"))
  }

  /** Part by part; a malformed part spoils the whole pattern. */
  predicate PathGlobs(pattern: seq<string>, path: seq<string>) {
    |pattern| == |path| && forall i :: 0 <= i < |pattern| ==> Globs(pattern[i], path[i])
  }

  /** Deleting `id` removes this file of the directory, or a directory it is in. */
  predicate Removes(dir: seq<string>, id: string, file: string) {
    var pattern, path := PatternOf(dir, id), dir + [file];
    |pattern| <= |path| && PathGlobs(pattern, path[..|pattern|])
  }

  /** No character of the name means anything in a pattern or a path. */
  predicate Plain(s: string) {
    forall i :: 0 <= i < |s| ==> s[i] !in "*?[\\/"
  }

  predicate PlainDir(dir: seq<string>) {
    forall i :: 0 <= i < |dir| ==> Plain(dir[i])
  }

  /** The IDs the program makes itself: the first 16 hexadecimal digits of a digest. */
  predicate IsDigest(id: string) {
    |id| == 16 && forall i :: 0 <= i < 16 ==> '0' <= id[i] <= '9' || 'a' <= id[i] <= 'f'
  }

  lemma {:induction false} StarGlobs(name: string)
    requires '/' !in name
    ensures Parse("*") == Some([Star]) && Matches([Star], name) && Globs("*", name)
    decreases |name|
  {
    var none: seq<Term> := [];
    assert "*"[1..] == "" && [Star] + none == [Star];
    if name != "" {
      StarGlobs(name[1..]);
    }
  }

  lemma {:induction false} PlainStarGlobs(id: string, name: string)
    requires Plain(id) && '/' !in name
    ensures Globs(id + "*", name) <==> HasPrefix(name, id)
    decreases |id|
  {
    var p := id + "*";
    if id == "" {
      StarGlobs(name);
    } else {
      assert id[0] !in "*?[\\/";
      assert p[1..] == id[1..] + "*";
      if name != "" {
        PlainStarGlobs(id[1..], name[1..]);
        assert name == [name[0]] + name[1..] && id == [id[0]] + id[1..];
      }
    }
  }

  lemma {:induction false} PlainGlobsItself(s: string)
    requires Plain(s)
    ensures Globs(s, s)
    decreases |s|
  {
    if s != "" {
      assert s[0] !in "*?[\\/";
      PlainGlobsItself(s[1..]);
    }
  }

  lemma {:induction false} NoSlashIsOnePart(s: string)
    requires '/' !in s
    ensures Split(s) == [s]
    decreases |s|
  {
    if s != "" {
      NoSlashIsOnePart(s[1..]);
      assert s == [s[0]] + s[1..];
    }
  }

  /** An ID without slashes is a pattern for the files of the directory itself. */
  lemma OnePartRemoves(dir: seq<string>, id: string, file: string)
    requires PlainDir(dir) && '/' !in id
    ensures Removes(dir, id, file) <==> Globs(id + "*", file)
  {
    NoSlashIsOnePart(id + "*");
    assert (id + "*")[|id|] == '*';
    assert Clean(dir + [id + "*"], []) == dir + [id + "*"];
    var pattern, path := dir + [id + "*"], dir + [file];
    assert PatternOf(dir, id) == pattern;
    assert path[..|pattern|] == path;
    forall i | 0 <= i < |dir| ensures Globs(pattern[i], path[i]) {
      PlainGlobsItself(dir[i]);
    }
    assert pattern[|dir|] == id + "*" && path[|dir|] == file;
  }

  /** A plain ID removes exactly the files whose names begin with it. */
  lemma PlainRemovesPrefixed(dir: seq<string>, id: string, file: string)
    requires PlainDir(dir) && Plain(id) && '/' !in file
    ensures Removes(dir, id, file) <==> HasPrefix(file, id)
  {
    OnePartRemoves(dir, id, file);
    PlainStarGlobs(id, file);
  }

  /** Among digests, an ID removes its own file and no other. */
  lemma DigestRemovesItsOwn(dir: seq<string>, id: string, other: string)
    requires PlainDir(dir) && IsDigest(id) && IsDigest(other)
    ensures Removes(dir, id, other + ".m4a") <==> other == id
  {
    PlainRemovesPrefixed(dir, id, other + ".m4a");
    assert (other + ".m4a")[..16] == other;
  }

  /** As many question marks as a name has characters, or fewer, match it. */
  lemma {:induction false} QuestionMarksGlob(n: nat, name: string)
    requires n <= |name| && '/' !in name
    ensures Globs(seq(n, _ => '?') + "*", name)
    decreases n
  {
    var p := seq(n, _ => '?') + "*";
    if n == 0 {
      assert p == "*";
      StarGlobs(name);
    } else {
      assert p[1..] == seq(n - 1, _ => '?') + "*";
      QuestionMarksGlob(n - 1, name[1..]);
    }
  }
}
