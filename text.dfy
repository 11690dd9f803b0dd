/** The Python string operations the extractors use, over `seq<char>`.
    Case mapping covers the ASCII letters only. */
module Text {
  import Common

  // ---------------------------------------------------------------------
  // Characters
  // ---------------------------------------------------------------------

  predicate IsUpper(c: char) { 'A' <= c <= 'Z' }
  predicate IsLower(c: char) { 'a' <= c <= 'z' }

  /** A letter that has an upper and a lower case form. */
  predicate IsCased(c: char) { IsUpper(c) || IsLower(c) }

  function Upper(c: char): (r: char)
    ensures IsCased(r) <==> IsCased(c)
    ensures !IsCased(c) ==> r == c
    ensures !IsLower(r)
  {
    if IsLower(c) then (c as int - 32) as char else c
  }

  function Lower(c: char): (r: char)
    ensures IsCased(r) <==> IsCased(c)
    ensures !IsCased(c) ==> r == c
    ensures !IsUpper(r)
  {
    if IsUpper(c) then (c as int + 32) as char else c
  }

  /** The characters Python's `str.split()` treats as separators. */
  predicate IsSpace(c: char) {
    c == ' ' || '\t' <= c <= '\r' || '\U{1C}' <= c <= '\U{1F}'
    || c == '\U{85}' || c == '\U{A0}' || c == '\U{1680}'
    || '\U{2000}' <= c <= '\U{200A}' || c == '\U{2028}' || c == '\U{2029}'
    || c == '\U{202F}' || c == '\U{205F}' || c == '\U{3000}'
  }

  // ---------------------------------------------------------------------
  // Whole strings
  // ---------------------------------------------------------------------

  function LowerAll(s: string): (r: string)
    ensures |r| == |s| && forall i :: 0 <= i < |s| ==> r[i] == Lower(s[i])
  {
    if s == [] then [] else [Lower(s[0])] + LowerAll(s[1..])
  }

  /** Python's `s.replace(a, b)` for single characters. */
  function ReplaceChar(s: string, a: char, b: char): (r: string)
    ensures |r| == |s|
    ensures forall i :: 0 <= i < |s| ==> r[i] == if s[i] == a then b else s[i]
  {
    if s == [] then [] else [if s[0] == a then b else s[0]] + ReplaceChar(s[1..], a, b)
  }

  /** Python's `s.capitalize()`: the first character upper case, the rest lower case. */
  function Capitalize(s: string): (r: string)
    ensures |r| == |s|
  {
    if s == [] then [] else [Upper(s[0])] + LowerAll(s[1..])
  }

  /** Python's `s.title()`: a character that follows a cased letter goes to
      lower case, any other goes to upper case. `afterCased` says whether the
      character before `s` was a cased letter. */
  function TitleFrom(s: string, afterCased: bool): (r: string)
    ensures |r| == |s|
  {
    if s == [] then []
    else [if afterCased then Lower(s[0]) else Upper(s[0])] + TitleFrom(s[1..], IsCased(s[0]))
  }

  function Title(s: string): string { TitleFrom(s, false) }

  /** Character by character, `title()` upper-cases exactly the letters that
      start a run of letters. */
  lemma {:induction false} TitleFromAt(s: string, afterCased: bool, i: nat)
    requires i < |s|
    ensures TitleFrom(s, afterCased)[i]
         == if (if i == 0 then afterCased else IsCased(s[i - 1])) then Lower(s[i]) else Upper(s[i])
    decreases i
  {
    if i > 0 {
      TitleFromAt(s[1..], IsCased(s[0]), i - 1);
    }
  }

  lemma TitleAt(s: string, i: nat)
    requires i < |s|
    ensures |Title(s)| == |s|
    ensures Title(s)[i] == if i > 0 && IsCased(s[i - 1]) then Lower(s[i]) else Upper(s[i])
  {
    TitleFromAt(s, false, i);
  }

  // ---------------------------------------------------------------------
  // Searching
  // ---------------------------------------------------------------------

  /** The index of the first occurrence of `m` in `s`, as Python's `s.find(m)`. */
  function Find(s: string, m: string): (r: Common.Option<nat>)
    ensures r.Some? ==> r.value + |m| <= |s| && m <= s[r.value..]
    ensures r.Some? ==> forall j :: 0 <= j < r.value ==> !(m <= s[j..])
    ensures r.None? ==> forall j :: 0 <= j <= |s| ==> !(m <= s[j..])
  {
    if m <= s then Common.Some(0)
    else if s == [] then Common.None
    else
      TailSuffixes(s);
      match Find(s[1..], m)
      case None => Common.None
      case Some(i) => Common.Some(i + 1)
  }

  /** The suffixes of a non-empty string from position 1 on are the
      suffixes of its tail. */
  lemma TailSuffixes(s: string)
    requires s != []
    ensures forall j :: 1 <= j <= |s| ==> s[j..] == s[1..][j - 1..]
  {
  }

  /** Python's `m in s`. */
  predicate Contains(s: string, m: string) { Find(s, m).Some? }

  /** A string contains every string it is glued out of. */
  lemma ContainsMiddle(a: string, m: string, b: string)
    ensures Contains(a + m + b, m)
  {
    var s := a + m + b;
    assert m <= s[|a|..];
  }

  /** A string glued out of pieces starts with the first one and contains
      the third and the fifth. */
  lemma GluedMentionsBoth(site: string, lead: string, a: string, mid: string, b: string, trail: string)
    ensures var q := site + lead + a + mid + b + trail;
      site <= q && Contains(q, a) && Contains(q, b)
  {
    ContainsMiddle(site + lead, a, mid + b + trail);
    assert site + lead + a + mid + b + trail == site + lead + a + (mid + b + trail);
    ContainsMiddle(site + lead + a + mid, b, trail);
  }

  /** A string contains itself. */
  lemma ContainsSelf(s: string)
    ensures Contains(s, s)
  {
    assert s <= s[0..];
  }

  /** A string contains the string it ends with. */
  lemma ContainsSuffix(s: string, m: string)
    ensures Contains(s + m, m)
  {
    assert (s + m)[|s|..] == m;
  }

  /** Appending to a string keeps what it contains. */
  lemma ContainsRight(s: string, m: string, t: string)
    requires Contains(s, m)
    ensures Contains(s + t, m)
  {
    var i := Find(s, m).value;
    assert m <= (s + t)[i..] by {
      forall k | 0 <= k < |m|
        ensures (s + t)[i..][k] == m[k]
      {
        assert (s + t)[i..][k] == s[i..][k];
      }
    }
  }

  /** A string glued out of eight pieces contains the first, the third, the
      fifth and the seventh. */
  lemma GluedMentionsFour(a: string, b: string, c: string, d: string, e: string, f: string, g: string, h: string)
    ensures var s := a + b + c + d + e + f + g + h;
      Contains(s, a) && Contains(s, c) && Contains(s, e) && Contains(s, g)
  {
    ContainsSelf(a);
    ContainsRight(a, a, b);
    ContainsRight(a + b, a, c);
    ContainsSuffix(a + b, c);
    ContainsRight(a + b + c, a, d);
    ContainsRight(a + b + c, c, d);
    ContainsRight(a + b + c + d, a, e);
    ContainsRight(a + b + c + d, c, e);
    ContainsSuffix(a + b + c + d, e);
    ContainsRight(a + b + c + d + e, a, f);
    ContainsRight(a + b + c + d + e, c, f);
    ContainsRight(a + b + c + d + e, e, f);
    ContainsRight(a + b + c + d + e + f, a, g);
    ContainsRight(a + b + c + d + e + f, c, g);
    ContainsRight(a + b + c + d + e + f, e, g);
    ContainsSuffix(a + b + c + d + e + f, g);
    ContainsRight(a + b + c + d + e + f + g, a, h);
    ContainsRight(a + b + c + d + e + f + g, c, h);
    ContainsRight(a + b + c + d + e + f + g, e, h);
    ContainsRight(a + b + c + d + e + f + g, g, h);
  }

  /** The prefix of `s` before the first `c`: Python's `s.split(c)[0]`. */
  function TakeUntil(s: string, c: char): (r: string)
    ensures r <= s && c !in r
    ensures |r| == |s| || s[|r|] == c
  {
    if s == [] || s[0] == c then [] else [s[0]] + TakeUntil(s[1..], c)
  }

  /** Python's `s.split(marker)[1].split('/')[0]` for a marker that starts
      with '/': the text after the first `marker` up to the next '/'. The
      first split also cuts at the next occurrence of the marker, but that
      occurrence starts with '/', so cutting at the next '/' gives the same
      segment. `None` stands for the `IndexError` raised when the marker is
      absent. */
  function SegmentAfter(s: string, marker: string): (r: Common.Option<string>)
    requires marker != [] && marker[0] == '/'
    ensures r.Some? <==> Contains(s, marker)
    ensures r.Some? ==> '/' !in r.value
    ensures r.Some? ==>
      var k := Find(s, marker).value + |marker|;
      k + |r.value| <= |s| && s[k..k + |r.value|] == r.value
      && (k + |r.value| == |s| || s[k + |r.value|] == '/')
  {
    match Find(s, marker)
    case None => Common.None
    case Some(i) =>
      var seg := TakeUntil(s[i + |marker|..], '/');
      assert s[i + |marker|..][..|seg|] == seg;
      Common.Some(seg)
  }

  // ---------------------------------------------------------------------
  // Splitting and joining
  // ---------------------------------------------------------------------

  /** Python's `s.split(d)` for one character: always at least one part. */
  function SplitChar(s: string, d: char): (r: seq<string>)
    ensures |r| >= 1
  {
    if s == [] then [[]]
    else
      var rest := SplitChar(s[1..], d);
      if s[0] == d then [[]] + rest else [[s[0]] + rest[0]] + rest[1..]
  }

  /** `sep + p` for every part `p`, concatenated. */
  function JoinTail(sep: string, parts: seq<string>): string {
    if parts == [] then [] else sep + parts[0] + JoinTail(sep, parts[1..])
  }

  /** Python's `sep.join(parts)`. */
  function Join(sep: string, parts: seq<string>): string {
    if parts == [] then [] else parts[0] + JoinTail(sep, parts[1..])
  }

  /** One step of `JoinTail` and of `Join`, for a list written as head and tail. */
  lemma JoinTailCons(sep: string, p: string, ps: seq<string>)
    ensures JoinTail(sep, [p] + ps) == sep + p + JoinTail(sep, ps)
  {
    assert ([p] + ps)[1..] == ps;
  }

  lemma JoinCons(sep: string, p: string, ps: seq<string>)
    ensures Join(sep, [p] + ps) == p + JoinTail(sep, ps)
  {
    assert ([p] + ps)[1..] == ps;
  }

  /** Joining two or more parts: the first part, the separator, and the
      rest joined. */
  lemma JoinFirstRest(sep: string, parts: seq<string>)
    requires |parts| >= 2
    ensures Join(sep, parts) == parts[0] + sep + Join(sep, parts[1..])
  {
    var rest := parts[1..];
    assert rest == [rest[0]] + rest[1..];
    JoinTailCons(sep, rest[0], rest[1..]);
    JoinCons(sep, rest[0], rest[1..]);
  }

  /** `sep.join` of four parts. */
  lemma JoinFour(sep: string, a: string, b: string, c: string, d: string)
    ensures Join(sep, [a, b, c, d]) == a + sep + b + sep + c + sep + d
  {
    assert [a, b, c, d] == [a] + ([b] + ([c] + ([d] + [])));
    JoinCons(sep, a, [b] + ([c] + ([d] + [])));
    JoinTailCons(sep, b, [c] + ([d] + []));
    JoinTailCons(sep, c, [d] + []);
    JoinTailCons(sep, d, []);
  }

  /** Four parts joined by `sep` and put between `open` and `close`. */
  lemma Bracketed(open: string, sep: string, close: string, w: string, x: string, y: string, z: string)
    ensures open + (w + sep + x + sep + y + sep + z) + close == open + w + sep + x + sep + y + sep + z + close
  {
  }

  function CapitalizeAll(parts: seq<string>): (r: seq<string>)
    ensures |r| == |parts|
    ensures forall i :: 0 <= i < |parts| ==> r[i] == Capitalize(parts[i])
  {
    if parts == [] then [] else [Capitalize(parts[0])] + CapitalizeAll(parts[1..])
  }

  /** The words of `s`, as Python's `s.split()` with no argument: maximal runs
      of non-space characters. `word` is the run read so far. */
  function WordsFrom(s: string, word: string): seq<string>
    decreases |s|
  {
    if s == [] then (if word == [] then [] else [word])
    else if IsSpace(s[0]) then
      (if word == [] then WordsFrom(s[1..], []) else [word] + WordsFrom(s[1..], []))
    else WordsFrom(s[1..], word + [s[0]])
  }

  function Words(s: string): seq<string> { WordsFrom(s, []) }

  ghost predicate NoSpace(s: string) { forall i :: 0 <= i < |s| ==> !IsSpace(s[i]) }

  /** `s` without its space characters. */
  function DropSpaces(s: string): (r: string)
    ensures NoSpace(r)
  {
    if s == [] then [] else (if IsSpace(s[0]) then [] else [s[0]]) + DropSpaces(s[1..])
  }

  function Concat(parts: seq<string>): string {
    if parts == [] then [] else parts[0] + Concat(parts[1..])
  }

  lemma {:induction false} WordsFromShape(s: string, word: string)
    requires NoSpace(word)
    ensures forall w :: w in WordsFrom(s, word) ==> w != [] && NoSpace(w)
    ensures Concat(WordsFrom(s, word)) == word + DropSpaces(s)
    decreases |s|
  {
    if s == [] {
    } else if IsSpace(s[0]) {
      WordsFromShape(s[1..], []);
    } else {
      WordsFromShape(s[1..], word + [s[0]]);
    }
  }

  /** The words are non-empty, hold no space, and together spell `s` with its
      spaces dropped; there are none exactly when `s` is all spaces. */
  lemma WordsShape(s: string)
    ensures forall w :: w in Words(s) ==> w != [] && NoSpace(w)
    ensures Concat(Words(s)) == DropSpaces(s)
    ensures Words(s) == [] <==> forall i :: 0 <= i < |s| ==> IsSpace(s[i])
  {
    WordsFromShape(s, []);
    AllSpaceIffDropped(s);
    if Words(s) != [] {
      assert Words(s)[0] in Words(s);
      assert Concat(Words(s)) == Words(s)[0] + Concat(Words(s)[1..]);
    }
  }

  lemma {:induction false} AllSpaceIffDropped(s: string)
    ensures DropSpaces(s) == [] <==> forall i :: 0 <= i < |s| ==> IsSpace(s[i])
  {
    if s != [] {
      AllSpaceIffDropped(s[1..]);
      assert forall i :: 1 <= i < |s| ==> s[i] == s[1..][i - 1];
    }
  }
}
