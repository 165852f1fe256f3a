/**
  The syntax of patterns stated by what the names they match look like, form by form, and what
  dots and slashes in an ID do to the path it makes.
 */
module PatternLaws {
  import opened Options
  import opened MediaNames
  import opened CachePattern

  /** A star matches any run of characters up to a slash. */
  lemma StarLaw(p: string, name: string)
    ensures
      Globs("*" + p, name) <==>
        exists k :: 0 <= k <= |name| && '/' !in name[..k] && Globs(p, name[k..])
  {
    assert ("*" + p)[1..] == p;
    if Parse(p).Some? {
      StarMatches(Parse(p).value, name);
      assert Parse("*" + p) == Some([Star] + Parse(p).value);
      assert forall k :: StarTakes(Parse(p).value, name, k) <==> 0 <= k <= |name| && '/' !in name[..k] && Globs(p, name[k..]);
    }
  }

  /** The star takes the first `k` characters of the name. */
  predicate StarTakes(terms: seq<Term>, name: string, k: int) {
    0 <= k <= |name| && '/' !in name[..k] && Matches(terms, name[k..])
  }

  lemma {:induction false} StarMatches(terms: seq<Term>, name: string)
    ensures Matches([Star] + terms, name) <==> exists k :: StarTakes(terms, name, k)
    decreases |name|
  {
    var all := [Star] + terms;
    assert all[1..] == terms && name[0..] == name;
    assert StarTakes(terms, name, 0) <==> Matches(terms, name);
    if name != "" {
      StarMatches(terms, name[1..]);
      if k :| StarTakes(terms, name[1..], k) {
        OneFurther(terms, name, k + 1);
        assert name[0] != '/' ==> StarTakes(terms, name, k + 1);
      }
      if k :| StarTakes(terms, name, k) && k > 0 {
        OneFurther(terms, name, k);
      }
    }
  }

  lemma OneFurther(terms: seq<Term>, name: string, k: int)
    requires name != "" && 0 < k
    ensures StarTakes(terms, name, k) <==> name[0] != '/' && StarTakes(terms, name[1..], k - 1)
  {
    if k <= |name| {
      assert name[..k] == [name[0]] + name[1..][..k - 1] && name[1..][k - 1..] == name[k..];
    }
  }

  /** A question mark matches one character that is no slash, and a plain character itself. */
  lemma CharacterLaw(c: char, p: string, name: string)
    requires Plain([c])
    ensures Globs("?" + p, name) <==> name != "" && name[0] != '/' && Globs(p, name[1..])
    ensures Globs([c] + p, name) <==> name != "" && name[0] == c && Globs(p, name[1..])
  {
    assert [c][0] !in "*?[\\/";
    assert ("?" + p)[1..] == p && ([c] + p)[1..] == p;
  }

  /** A backslash takes away the meaning of the next character; at the end it is malformed. */
  lemma EscapeLaw(c: char, p: string, name: string)
    ensures Globs("\\" + [c] + p, name) <==> name != "" && name[0] == c && Globs(p, name[1..])
    ensures !Globs("\\", name)
  {
    assert ("\\" + [c] + p)[2..] == p && ("\\" + [c] + p)[1] == c;
  }

  lemma RangeParses(lo: char, hi: char, p: string)
    requires lo !in "-]\\" && hi !in "-]\\"
    ensures ParseRanges([lo] + "-" + [hi] + "]" + p, true) == Some(([(lo, hi)], p))
  {
    var q := [lo] + "-" + [hi] + "]" + p;
    assert q[1..] == "-" + [hi] + "]" + p && q[1..][1..] == [hi] + "]" + p;
    assert q[1..][1..][1..] == "]" + p && ("]" + p)[1..] == p;
    assert ParseChar(q) == Some((lo, q[1..]));
    assert ParseChar(q[1..][1..]) == Some((hi, "]" + p));
    var none: seq<(char, char)> := [];
    assert ParseRanges("]" + p, false) == Some((none, p));
    assert [(lo, hi)] + none == [(lo, hi)];
  }

  lemma OneRange(negated: bool, lo: char, hi: char, c: char)
    ensures Accepts(OneOf(negated, [(lo, hi)]), c) <==> (if negated then !(lo <= c <= hi) else lo <= c <= hi)
  {
    assert [(lo, hi)][0] == (lo, hi);
  }

  /** A class matches one character in its range, or with a caret one outside it. */
  lemma ClassLaw(lo: char, hi: char, p: string, name: string)
    requires lo !in "-]\\^" && hi !in "-]\\"
    ensures
      Globs("[" + ([lo] + "-" + [hi] + "]" + p), name) <==> name != "" && lo <= name[0] <= hi && Globs(p, name[1..])
    ensures
      Globs("[^" + ([lo] + "-" + [hi] + "]" + p), name) <==> name != "" && !(lo <= name[0] <= hi) && Globs(p, name[1..])
  {
    RangeParses(lo, hi, p);
    var q := [lo] + "-" + [hi] + "]" + p;
    assert q[0] == lo && ("[" + q)[1..] == q && ("[^" + q)[2..] == q;
    ClassParses(lo, hi, q, p);
    if Parse(p).Some? {
      ClassMatches(false, lo, hi, Parse(p).value, name);
      ClassMatches(true, lo, hi, Parse(p).value, name);
    }
  }

  lemma ClassParses(lo: char, hi: char, q: string, p: string)
    requires q != "" && q[0] != '^' && ParseRanges(q, true) == Some(([(lo, hi)], p))
    ensures Parse("[" + q) == Before(OneOf(false, [(lo, hi)]), Parse(p))
    ensures Parse("[^" + q) == Before(OneOf(true, [(lo, hi)]), Parse(p))
  {
    assert ("[" + q)[1..] == q && ("[^" + q)[2..] == q;
  }

  lemma ClassMatches(negated: bool, lo: char, hi: char, terms: seq<Term>, name: string)
    ensures
      Matches([OneOf(negated, [(lo, hi)])] + terms, name) <==>
        name != "" && (if negated then !(lo <= name[0] <= hi) else lo <= name[0] <= hi) && Matches(terms, name[1..])
  {
    assert ([OneOf(negated, [(lo, hi)])] + terms)[1..] == terms;
    if name != "" {
      OneRange(negated, lo, hi, name[0]);
    }
  }

  /** The empty pattern matches the empty name, and an unclosed class nothing. */
  lemma EndLaw(name: string)
    ensures Globs("", name) <==> name == ""
    ensures !Globs("[a", name)
  {
    assert "[a"[1..] == "a";
  }

  lemma {:induction false} SplitAtSlash(s: string, rest: string)
    requires '/' !in s
    ensures Split(s + "/" + rest) == [s] + Split(rest)
    decreases |s|
  {
    var all := s + "/" + rest;
    if s == "" {
      assert all[1..] == rest;
    } else {
      assert all[1..] == s[1..] + "/" + rest && all[0] == s[0];
      SplitAtSlash(s[1..], rest);
      assert s == [s[0]] + s[1..];
    }
  }

  /** An empty or single-dot part changes nothing; a double dot takes the part before it back. */
  lemma DotsLaw(dir: seq<string>, part: string, id: string)
    requires '/' !in part && part !in ["", ".", ".."]
    ensures PatternOf(dir, "/" + id) == PatternOf(dir, id)
    ensures PatternOf(dir, "./" + id) == PatternOf(dir, id)
    ensures PatternOf(dir, part + "/" + id) == PatternOf(dir + [part], id)
    ensures PatternOf(dir + [part], "../" + id) == PatternOf(dir, id)
  {
    var rest := id + "*";
    OnePartMore(dir, "", id);
    OnePartMore(dir, ".", id);
    OnePartMore(dir, part, id);
    OnePartMore(dir + [part], "..", id);
    assert "" + "/" + id == "/" + id && "." + "/" + id == "./" + id && ".." + "/" + id == "../" + id;
    assert (dir + [part])[..|dir|] == dir;
  }

  lemma OnePartMore(dir: seq<string>, part: string, id: string)
    requires '/' !in part
    ensures PatternOf(dir, part + "/" + id) == Clean(dir, [part] + Split(id + "*"))
    ensures ([part] + Split(id + "*"))[1..] == Split(id + "*")
  {
    SplitAtSlash(part, id + "*");
    assert part + "/" + id + "*" == part + "/" + (id + "*");
  }

  /** What the names of valid IDs stand for lies in the cache directory itself, or one directory below. */
  lemma ValidIdsStayInCache(dir: seq<string>, id: string)
    requires ValidMediaID(id)
    ensures Clean(dir, Split(id + ".opus")) == dir + [id + ".opus"]
    ensures Clean(dir, Split(id + ".m4a")) == dir + [id + ".m4a"]
  {
    NameStays(dir, id, ".opus");
    NameStays(dir, id, ".m4a");
  }

  lemma NameStays(dir: seq<string>, id: string, ext: string)
    requires '/' !in id && '/' !in ext && |ext| > 2
    ensures Clean(dir, Split(id + ext)) == dir + [id + ext]
  {
    NoSlashIsOnePart(id + ext);
    assert Clean(dir + [id + ext], []) == dir + [id + ext];
  }
}
