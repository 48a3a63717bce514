/**
  Topic filters and topic names: the character scanners of `topic::match` and
  `mqtt_subscribe::is_topic_filter_valid`, the level grammar of section 4.7 of MQTT 3.1.1,
  and the theorems that relate the two.
 */
module TopicFilter {
  import opened Basics

  const HASH: byte := 0x23
  const PLUS: byte := 0x2B
  const SLASH: byte := 0x2F
  const DOLLAR: byte := 0x24

  predicate IsWildcard(c: byte) { c == HASH || c == PLUS }

  predicate HasWildcard(s: Str) {
    s != [] && (IsWildcard(s[0]) || HasWildcard(s[1..]))
  }

  lemma {:induction false} HasWildcardMeans(s: Str)
    ensures HasWildcard(s) <==> exists i :: 0 <= i < |s| && IsWildcard(s[i])
  {
    if s != [] {
      HasWildcardMeans(s[1..]);
      if i :| 0 <= i < |s| && IsWildcard(s[i]) {
        if i > 0 { assert s[1..][i - 1] == s[i]; }
      }
      if j :| 0 <= j < |s[1..]| && IsWildcard(s[1..][j]) {
        assert s[j + 1] == s[1..][j];
      }
    }
  }

  // ---------------------------------------------------------------- levels

  /** The number of characters before the first '/', or the whole length. */
  function HeadLen(s: Str): (k: nat)
    ensures k <= |s|
    ensures forall i :: 0 <= i < k ==> s[i] != SLASH
    ensures k < |s| ==> s[k] == SLASH
  {
    if s == [] || s[0] == SLASH then 0 else 1 + HeadLen(s[1..])
  }

  /** The '/'-separated levels; the empty string has one empty level. */
  function Levels(s: Str): (ls: seq<Str>)
    ensures |ls| >= 1
    ensures ls[0] == s[..HeadLen(s)]
    decreases |s|
  {
    var k := HeadLen(s);
    if k == |s| then [s] else [s[..k]] + Levels(s[k + 1..])
  }

  predicate WildLevel(l: Str) { l == [PLUS] || l == [HASH] }

  predicate LevelOk(l: Str, last: bool) {
    !HasWildcard(l) || l == [PLUS] || (l == [HASH] && last)
  }

  /** The level grammar: every level is wildcard-free, exactly "+", or exactly "#" and last. */
  ghost predicate ValidLevels(ls: seq<Str>) {
    forall k :: 0 <= k < |ls| ==> LevelOk(ls[k], k == |ls| - 1)
  }

  /** Level-wise matching; "#" also matches the parent level. */
  predicate LevelMatch(fs: seq<Str>, ns: seq<Str>) {
    if fs == [] then ns == []
    else if fs[0] == [HASH] then true
    else if ns == [] then false
    else (fs[0] == [PLUS] || fs[0] == ns[0]) && LevelMatch(fs[1..], ns[1..])
  }

  // ---------------------------------------------------------------- filter validity

  /** What the scanner checks at position i. */
  predicate PositionOk(f: Str, i: nat)
    requires i < |f|
  {
    var starts := i == 0 || f[i - 1] == SLASH;
    && (f[i] == HASH ==> starts && i + 1 == |f|)
    && (f[i] == PLUS ==> starts && (i + 1 == |f| || f[i + 1] == SLASH))
  }

  ghost predicate ScanValid(f: Str) {
    forall i :: 0 <= i < |f| ==> PositionOk(f, i)
  }

  /** The scan from position i on, as the decoder runs it. */
  predicate ValidFrom(f: Str, i: nat)
    requires i <= |f|
    decreases |f| - i
  {
    i == |f| || (PositionOk(f, i) && ValidFrom(f, i + 1))
  }

  predicate Valid(f: Str) { ValidFrom(f, 0) }

  lemma {:induction false} ValidFromMeans(f: Str, i: nat)
    requires i <= |f|
    ensures ValidFrom(f, i) <==> forall k :: i <= k < |f| ==> PositionOk(f, k)
    decreases |f| - i
  {
    if i < |f| { ValidFromMeans(f, i + 1); }
  }

  /** The decoder's scan accepts exactly the filters of the level grammar. */
  lemma ValidIsGrammar(f: Str)
    ensures Valid(f) <==> ValidLevels(Levels(f))
  {
    ValidFromMeans(f, 0);
    ScanValidIsGrammar(f);
  }

  /** In characters: "a/+" and "#" are filters, "a+" and "#/a" are not. */
  lemma FilterExamples()
    ensures Valid([0x61, 0x2F, 0x2B]) && Valid([0x23]) && !Valid([0x61, 0x2B]) && !Valid([0x23, 0x2F, 0x61])
  {
    ValidFromMeans([0x61, 0x2F, 0x2B], 0);
    ValidFromMeans([0x23], 0);
    ValidFromMeans([0x61, 0x2B], 0);
    ValidFromMeans([0x23, 0x2F, 0x61], 0);
    assert !PositionOk([0x61, 0x2B], 1) && !PositionOk([0x23, 0x2F, 0x61], 0);
  }

  /** One level scans correctly iff it obeys the grammar. */
  lemma SingleLevelValid(l: Str, last: bool)
    requires SLASH !in l
    ensures last ==> (ScanValid(l) <==> LevelOk(l, true))
    ensures !last ==> ((forall i :: 0 <= i < |l| ==> PositionOk(l + [SLASH], i)) <==> LevelOk(l, false))
  {
    var f := if last then l else l + [SLASH];
    HasWildcardMeans(l);
    if forall i :: 0 <= i < |l| ==> PositionOk(f, i) {
      if HasWildcard(l) {
        var i :| 0 <= i < |l| && IsWildcard(l[i]);
        assert PositionOk(f, i) && f[i] == l[i];
        assert i == 0;
        assert |l| == 1;
      }
    }
  }

  /** A filter with a slash is valid iff its first level and the rest are. */
  lemma ScanValidCons(l: Str, rest: Str)
    requires SLASH !in l
    ensures ScanValid(l + [SLASH] + rest) <==> LevelOk(l, false) && ScanValid(rest)
  {
    var f := l + [SLASH] + rest;
    SingleLevelValid(l, false);
    forall i | 0 <= i < |l| ensures PositionOk(f, i) <==> PositionOk(l + [SLASH], i) {
      assert f[i] == l[i];
    }
    forall i | 0 <= i < |rest| ensures PositionOk(f, |l| + 1 + i) <==> PositionOk(rest, i) {
      assert f[|l| + 1 + i] == rest[i];
    }
    assert PositionOk(f, |l|);
    if LevelOk(l, false) && ScanValid(rest) {
      forall i | 0 <= i < |f| ensures PositionOk(f, i) {
        if i > |l| { assert PositionOk(rest, i - |l| - 1); }
      }
    }
  }

  lemma {:induction false} HeadLenCons(l: Str, rest: Str)
    requires SLASH !in l
    ensures HeadLen(l + [SLASH] + rest) == |l|
  {
    if l != [] {
      assert (l + [SLASH] + rest)[1..] == l[1..] + [SLASH] + rest;
      HeadLenCons(l[1..], rest);
    }
  }

  lemma LevelsCons(l: Str, rest: Str)
    requires SLASH !in l
    ensures Levels(l + [SLASH] + rest) == [l] + Levels(rest)
  {
    var f := l + [SLASH] + rest;
    HeadLenCons(l, rest);
    assert f[..|l|] == l && f[|l| + 1..] == rest;
  }

  lemma ValidLevelsCons(l: Str, ls: seq<Str>)
    requires |ls| >= 1
    ensures ValidLevels([l] + ls) <==> LevelOk(l, false) && ValidLevels(ls)
  {
    var all := [l] + ls;
    assert forall j :: 0 <= j < |ls| ==> all[j + 1] == ls[j];
    if ValidLevels(all) {
      assert LevelOk(all[0], 0 == |all| - 1);
      forall j | 0 <= j < |ls| ensures LevelOk(ls[j], j == |ls| - 1) {
        assert LevelOk(all[j + 1], j + 1 == |all| - 1);
      }
    }
    if LevelOk(l, false) && ValidLevels(ls) {
      forall j | 0 <= j < |all| ensures LevelOk(all[j], j == |all| - 1) {
        if j > 0 { assert LevelOk(ls[j - 1], j - 1 == |ls| - 1); }
      }
    }
  }

  /** The character scan accepts exactly the filters of the level grammar. */
  lemma {:induction false} ScanValidIsGrammar(f: Str)
    ensures ScanValid(f) <==> ValidLevels(Levels(f))
    decreases |f|
  {
    var k := HeadLen(f);
    if k == |f| {
      SingleLevelValid(f, true);
      assert Levels(f) == [f];
    } else {
      var l, rest := f[..k], f[k + 1..];
      assert f == l + [SLASH] + rest;
      ScanValidCons(l, rest);
      ScanValidIsGrammar(rest);
      LevelsCons(l, rest);
      ValidLevelsCons(l, Levels(rest));
    }
  }

  /** `is_topic_filter_valid`: the loop with `prev_ch` and the out-parameter `is_wild`. */
  method IsTopicFilterValid(f: Str) returns (valid: bool, isWild: bool)
    ensures valid <==> Valid(f)
    ensures valid <==> ValidLevels(Levels(f))
    ensures isWild <==> HasWildcard(f)
  {
    ValidIsGrammar(f);
    ScanValidIsGrammar(f);
    HasWildcardMeans(f);
    isWild := false;
    var prev: byte := 0;
    var i := 0;
    while i < |f|
      invariant 0 <= i <= |f|
      invariant i > 0 ==> prev == f[i - 1]
      invariant forall k :: 0 <= k < i ==> PositionOk(f, k)
      invariant isWild <==> exists k :: 0 <= k < i && IsWildcard(f[k])
    {
      var ch := f[i];
      if ch == HASH {
        isWild := true;
        if (i != 0 && prev != SLASH) || i + 1 != |f| {
          assert !PositionOk(f, i);
          return false, true;
        }
      } else if ch == PLUS {
        isWild := true;
        if (i != 0 && prev != SLASH) || (i + 1 != |f| && f[i + 1] != SLASH) {
          assert !PositionOk(f, i);
          return false, true;
        }
      }
      prev := ch;
      i := i + 1;
    }
    valid := true;
  }

  // ---------------------------------------------------------------- matching

  /** The scan of `topic::match`, one filter character (or one '+') at a time. */
  predicate Scan(f: Str, n: Str)
    decreases |f|
  {
    if f == [] then n == []
    else if n == [] then f[0] == SLASH && |f| > 1 && f[1] == HASH
    else if f[0] == HASH then true
    else if f[0] == PLUS then Scan(f[1..], n[HeadLen(n)..])
    else f[0] == n[0] && Scan(f[1..], n[1..])
  }

  /** `topic::match`: two iterators over filter and name. */
  method Match(filter: Str, name: Str) returns (r: bool)
    ensures r == Scan(filter, name)
  {
    var fi, ni := 0, 0;
    while true
      invariant 0 <= fi <= |filter| && 0 <= ni <= |name|
      invariant Scan(filter, name) == Scan(filter[fi..], name[ni..])
      decreases |filter| - fi
    {
      ghost var f, n := filter[fi..], name[ni..];
      if fi == |filter| && ni == |name| {
        return true;
      } else if fi == |filter| {
        return false;
      } else if ni == |name| {
        if filter[fi] == SLASH {
          fi := fi + 1;
          if fi != |filter| && filter[fi] == HASH {
            return true;
          }
        }
        return false;
      }
      assert f[0] == filter[fi] && n[0] == name[ni] && f[1..] == filter[fi + 1..];
      if filter[fi] == HASH {
        return true;
      } else if filter[fi] == PLUS {
        fi := fi + 1;
        ghost var start := ni;
        while ni < |name| && name[ni] != SLASH
          invariant start <= ni <= |name|
          invariant ni - start + HeadLen(name[ni..]) == HeadLen(n)
        {
          assert name[ni..][1..] == name[ni + 1..];
          ni := ni + 1;
        }
        assert n[HeadLen(n)..] == name[ni..];
      } else if filter[fi] == name[ni] {
        assert n[1..] == name[ni + 1..];
        fi := fi + 1;
        ni := ni + 1;
      } else {
        return false;
      }
    }
  }

  /** A wildcard-free filter matches exactly the equal name. */
  lemma {:induction false} LiteralMatch(f: Str, n: Str)
    requires !HasWildcard(f)
    ensures Scan(f, n) <==> f == n
    decreases |f|
  {
    if f != [] {
      assert !IsWildcard(f[0]);
      if n == [] {
        if |f| > 1 { assert f[1..][0] == f[1] && !IsWildcard(f[1]); }
      } else {
        assert f == [f[0]] + f[1..] && n == [n[0]] + n[1..];
        LiteralMatch(f[1..], n[1..]);
      }
    }
  }

  /** A literal first level must be equalled by the name's first level. */
  lemma {:induction false} ScanLiteralLevel(l: Str, fr: Str, m: Str, nr: Str)
    requires SLASH !in l && SLASH !in m && !HasWildcard(l)
    requires fr == [] || fr[0] == SLASH
    requires nr == [] || nr[0] == SLASH
    ensures Scan(l + fr, m + nr) <==> l == m && Scan(fr, nr)
    decreases |l|
  {
    if l == [] {
      assert l + fr == fr;
      if m == [] {
        assert m + nr == nr;
      } else {
        assert (m + nr)[0] == m[0];
      }
    } else {
      assert !IsWildcard(l[0]) && (l + fr)[0] == l[0];
      assert l == [l[0]] + l[1..];
      assert (l + fr)[1..] == l[1..] + fr;
      if m == [] {
        assert m + nr == nr;
      } else {
        assert (m + nr)[0] == m[0] && (m + nr)[1..] == m[1..] + nr;
        assert m == [m[0]] + m[1..];
        ScanLiteralLevel(l[1..], fr, m[1..], nr);
      }
    }
  }

  /** The one case in which the scan departs from the levels: the name's last level is empty
      and the filter has a wildcard level at that very position. */
  predicate WildcardOnEmptyLast(fs: seq<Str>, ns: seq<Str>)
    requires |ns| >= 1
  {
    ns[|ns| - 1] == [] && |fs| >= |ns| && WildLevel(fs[|ns| - 1])
  }

  lemma WildcardOnEmptyLastCons(l: Str, fs: seq<Str>, m: Str, ns: seq<Str>)
    requires |ns| >= 1
    ensures WildcardOnEmptyLast([l] + fs, [m] + ns) <==> WildcardOnEmptyLast(fs, ns)
  {
    assert ([m] + ns)[|ns|] == ns[|ns| - 1];
    if |fs| >= |ns| { assert ([l] + fs)[|ns|] == fs[|ns| - 1]; }
  }

  /** Main result on matching: for every valid filter and every name (empty, or ending in '/',
      included), the scan accepts iff the levels match and no wildcard level sits on an empty last level. */
  lemma {:induction false} ScanIsLevelMatch(f: Str, n: Str)
    requires ScanValid(f)
    ensures Scan(f, n) <==> LevelMatch(Levels(f), Levels(n)) && !WildcardOnEmptyLast(Levels(f), Levels(n))
    decreases |f|, 1
  {
    var k := HeadLen(f);
    if k == |f| {
      ScanValidIsGrammar(f);
      assert Levels(f) == [f] && LevelOk(Levels(f)[0], true);
      OnlyLevel(f, n);
    } else {
      assert f == f[..k] + [SLASH] + f[k + 1..];
      LaterLevels(f[..k], f[k + 1..], n);
    }
  }

  lemma OnlyLevel(f: Str, n: Str)
    requires HeadLen(f) == |f| && LevelOk(f, true)
    ensures Scan(f, n) <==> LevelMatch(Levels(f), Levels(n)) && !WildcardOnEmptyLast(Levels(f), Levels(n))
  {
    if f != [HASH] {
      var j := HeadLen(n);
      assert f + [] == f && n[..j] + n[j..] == n;
      FirstLevel(f, [], n[..j], n[j..]);
      LastFilterLevel(f, n);
    }
  }

  /** The induction step of ScanIsLevelMatch below the first level. */
  lemma {:induction false} LaterLevels(l: Str, f2: Str, n: Str)
    requires SLASH !in l && ScanValid(l + [SLASH] + f2)
    ensures var fs := Levels(l + [SLASH] + f2);
      Scan(l + [SLASH] + f2, n) <==> LevelMatch(fs, Levels(n)) && !WildcardOnEmptyLast(fs, Levels(n))
    decreases |l| + 1 + |f2|, 0
  {
    var j := HeadLen(n);
    var m := n[..j];
    ScanValidCons(l, f2);
    LevelsCons(l, f2);
    Assoc(l, [SLASH], f2);
    TakeDrop(n, j);
    FirstLevel(l, [SLASH] + f2, m, n[j..]);
    if j == |n| {
      NameEnds(l, f2, n);
    } else {
      var n2 := n[j + 1..];
      Assoc(m, [SLASH], n2);
      ScanIsLevelMatch(f2, n2);
      BothGoOn(l, f2, m, n2);
    }
  }

  lemma BothGoOn(l: Str, f2: Str, m: Str, n2: Str)
    requires SLASH !in m && l != [HASH]
    requires Scan(f2, n2) <==> LevelMatch(Levels(f2), Levels(n2)) && !WildcardOnEmptyLast(Levels(f2), Levels(n2))
    ensures var fs, ns := [l] + Levels(f2), Levels(m + [SLASH] + n2);
      (l == [PLUS] || l == m) && Scan([SLASH] + f2, [SLASH] + n2) <==>
        LevelMatch(fs, ns) && !WildcardOnEmptyLast(fs, ns)
  {
    LevelsCons(m, n2);
    MatchCons(l, Levels(f2), m, Levels(n2));
    SlashStep(f2, n2);
  }

  lemma SlashStep(f2: Str, n2: Str)
    ensures Scan([SLASH] + f2, [SLASH] + n2) == Scan(f2, n2)
  {
    assert ([SLASH] + f2)[1..] == f2 && ([SLASH] + n2)[1..] == n2;
  }

  lemma MatchCons(l: Str, fs: seq<Str>, m: Str, ns: seq<Str>)
    requires |ns| >= 1 && l != [HASH]
    ensures LevelMatch([l] + fs, [m] + ns) <==> (l == [PLUS] || l == m) && LevelMatch(fs, ns)
    ensures WildcardOnEmptyLast([l] + fs, [m] + ns) <==> WildcardOnEmptyLast(fs, ns)
  {
    assert ([l] + fs)[1..] == fs && ([m] + ns)[1..] == ns;
    WildcardOnEmptyLastCons(l, fs, m, ns);
  }

  /** The filter has a single level, not "#". */
  lemma LastFilterLevel(f: Str, n: Str)
    requires HeadLen(f) == |f| && f != [HASH] && LevelOk(f, true)
    ensures var m := n[..HeadLen(n)];
      (if f == [PLUS] then n != [] else f == m) && HeadLen(n) == |n|
      <==> LevelMatch(Levels(f), Levels(n)) && !WildcardOnEmptyLast(Levels(f), Levels(n))
  {
    var fs, ns := Levels(f), Levels(n);
    assert fs == [f] && fs[1..] == [];
    if HeadLen(n) == |n| {
      assert n[..|n|] == n && ns == [n] && ns[1..] == [];
      if f == n && WildLevel(f) { assert f == [PLUS]; }
    } else {
      assert |ns| >= 2 && ns[1..] != [];
    }
  }

  /** The name has a single level and the filter goes on: only a final "#" may follow. */
  lemma NameEnds(l: Str, f2: Str, n: Str)
    requires SLASH !in l && LevelOk(l, false) && ScanValid(f2) && HeadLen(n) == |n|
    ensures var fs := [l] + Levels(f2);
      (if l == [PLUS] then n != [] else l == n) && Scan([SLASH] + f2, [])
      <==> LevelMatch(fs, Levels(n)) && !WildcardOnEmptyLast(fs, Levels(n))
  {
    var fs, ns := [l] + Levels(f2), Levels(n);
    assert ns == [n] && ns[1..] == [] && fs[1..] == Levels(f2) && fs[0] == l;
    RestMatchesNothing(f2);
  }

  lemma RestMatchesNothing(f2: Str)
    requires ScanValid(f2)
    ensures Scan([SLASH] + f2, []) <==> LevelMatch(Levels(f2), [])
  {
    var f := [SLASH] + f2;
    assert f[1..] == f2;
    if f2 != [] && f2[0] == HASH {
      assert PositionOk(f2, 0);
      assert f2 == [HASH] && Levels(f2) == [[HASH]];
    } else {
      assert Levels(f2)[0] != [HASH];
    }
  }

  lemma {:induction false} HeadLenOf(m: Str, nr: Str)
    requires SLASH !in m
    requires nr == [] || nr[0] == SLASH
    ensures HeadLen(m + nr) == |m|
  {
    if m == [] {
      assert m + nr == nr;
    } else {
      assert (m + nr)[1..] == m[1..] + nr;
      HeadLenOf(m[1..], nr);
    }
  }

  /** The first level of a filter, other than "#", against the first level of a name. */
  lemma FirstLevel(l: Str, fr: Str, m: Str, nr: Str)
    requires SLASH !in l && SLASH !in m && l != [HASH] && LevelOk(l, fr == [])
    requires fr == [] || fr[0] == SLASH
    requires nr == [] || nr[0] == SLASH
    ensures Scan(l + fr, m + nr) <==> (if l == [PLUS] then m + nr != [] else l == m) && Scan(fr, nr)
  {
    if l == [PLUS] {
      var f, n := l + fr, m + nr;
      assert f[0] == PLUS && f[1..] == fr;
      HeadLenOf(m, nr);
      assert n[HeadLen(n)..] == nr;
    } else {
      ScanLiteralLevel(l, fr, m, nr);
    }
  }

  /** For names that are non-empty and do not end in '/', the scan is exactly level-wise matching. */
  lemma ScanEqualsLevelMatch(f: Str, n: Str)
    requires ScanValid(f)
    requires n != [] && n[|n| - 1] != SLASH
    ensures Scan(f, n) <==> LevelMatch(Levels(f), Levels(n))
  {
    ScanIsLevelMatch(f, n);
    LastLevel(n);
  }

  /** The last level is empty iff the string is empty or ends in '/'. */
  lemma {:induction false} LastLevel(n: Str)
    ensures Levels(n)[|Levels(n)| - 1] == [] <==> n == [] || n[|n| - 1] == SLASH
    decreases |n|
  {
    var k := HeadLen(n);
    if k < |n| {
      var rest := n[k + 1..];
      LastLevel(rest);
      assert Levels(n)[|Levels(n)| - 1] == Levels(rest)[|Levels(rest)| - 1];
      if rest != [] { assert rest[|rest| - 1] == n[|n| - 1]; }
    }
  }

  /** A concrete departure from section 4.7: "a/+" and "a/#" do not match "a/". */
  lemma TrailingSlashCounterexample()
    ensures var n: Str, p: Str, h: Str := [0x61, SLASH], [0x61, SLASH, PLUS], [0x61, SLASH, HASH];
      && LevelMatch(Levels(p), Levels(n)) && !Scan(p, n)
      && LevelMatch(Levels(h), Levels(n)) && !Scan(h, n)
  {
    var a: Str := [0x61];
    var e: Str := [];
    var n: Str, p: Str, h: Str := [0x61, SLASH], [0x61, SLASH, PLUS], [0x61, SLASH, HASH];
    assert n == a + [SLASH] + e && p == a + [SLASH] + [PLUS] && h == a + [SLASH] + [HASH];
    LevelsCons(a, e);
    LevelsCons(a, [PLUS]);
    LevelsCons(a, [HASH]);
    assert Levels(n) == [a, e] && Levels(p) == [a, [PLUS]] && Levels(h) == [a, [HASH]];
    assert [a, [PLUS]][1..] == [[PLUS]] && [a, [HASH]][1..] == [[HASH]] && [a, e][1..] == [e];
    ScanValidCons(a, [PLUS]);
    ScanValidCons(a, [HASH]);
    ScanIsLevelMatch(p, n);
    ScanIsLevelMatch(h, n);
  }
}
