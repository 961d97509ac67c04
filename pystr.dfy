/** The Python `str` operations the authentication code relies on: whitespace, strip(), split()
    without a separator, the case-insensitive comparisons, replace(), rstrip(c), join() and the
    ASCII test that hmac.compare_digest applies to its string arguments. */
module PyStr {

  import opened Base

  /** The characters for which Python's str.isspace() holds; str.split() and str.strip()
      without arguments separate and trim on exactly these. */
  predicate IsSpace(c: char)
  {
    || c == ' '
    || '\t' <= c <= '\r'
    || '\U{1c}' <= c <= '\U{1f}'
    || c == '\U{85}' || c == '\U{a0}' || c == '\U{1680}'
    || '\U{2000}' <= c <= '\U{200a}'
    || c == '\U{2028}' || c == '\U{2029}' || c == '\U{202f}' || c == '\U{205f}' || c == '\U{3000}'
  }

  predicate NoSpace(s: string)
  {
    forall i | 0 <= i < |s| :: !IsSpace(s[i])
  }

  predicate AllSpace(s: string)
  {
    forall i | 0 <= i < |s| :: IsSpace(s[i])
  }

  predicate IsAscii(s: string)
  {
    forall i | 0 <= i < |s| :: s[i] as int < 128
  }

  /** `s.startswith(prefix)`. */
  predicate StartsWith(s: string, prefix: string)
  {
    |prefix| <= |s| && s[..|prefix|] == prefix
  }

  /** Lower-casing of one character, on ASCII letters. */
  function LowerChar(c: char): char
  {
    if 'A' <= c <= 'Z' then (c as int + 32) as char else c
  }

  /** `s.lower()`, on ASCII letters (see README for why this suffices for the fixed
      lower-case words the source compares against). */
  function Lower(s: string): (r: string)
    ensures |r| == |s|
    ensures forall i | 0 <= i < |s| :: r[i] == LowerChar(s[i])
  {
    if s == [] then [] else [LowerChar(s[0])] + Lower(s[1..])
  }

  /** `s.lstrip()`. */
  function LStrip(s: string): (r: string)
    decreases |s|
    ensures |r| <= |s|
  {
    if s != [] && IsSpace(s[0]) then LStrip(s[1..]) else s
  }

  /** `s.rstrip()`. */
  function RStrip(s: string): (r: string)
    decreases |s|
    ensures |r| <= |s|
  {
    if s != [] && IsSpace(s[|s| - 1]) then RStrip(s[..|s| - 1]) else s
  }

  /** What lstrip() removes is whitespace, and what remains is a suffix that does not start
      with it. */
  lemma {:induction false} LStripShape(s: string)
    ensures var r := LStrip(s);
            && r == s[|s| - |r|..]
            && (forall i | 0 <= i < |s| - |r| :: IsSpace(s[i]))
            && (r == [] || !IsSpace(r[0]))
    decreases |s|
  {
    if s != [] && IsSpace(s[0]) {
      LStripShape(s[1..]);
    }
  }

  /** What rstrip() removes is whitespace, and what remains is a prefix that does not end with
      it. */
  lemma {:induction false} RStripShape(s: string)
    ensures var r := RStrip(s);
            && r == s[..|r|]
            && (forall i | |r| <= i < |s| :: IsSpace(s[i]))
            && (r == [] || !IsSpace(r[|r| - 1]))
    decreases |s|
  {
    if s != [] && IsSpace(s[|s| - 1]) {
      RStripShape(s[..|s| - 1]);
    }
  }

  /** `s.strip()`. */
  function Strip(s: string): string
  {
    RStrip(LStrip(s))
  }

  /** A string that neither starts nor ends with whitespace is its own strip(). */
  lemma StripTrimmed(s: string)
    requires s == [] || (!IsSpace(s[0]) && !IsSpace(s[|s| - 1]))
    ensures Strip(s) == s
  {
  }

  /** lstrip() removes exactly the leading whitespace before a non-whitespace character. */
  lemma {:induction false} LStripLeading(lead: string, s: string)
    requires AllSpace(lead) && s != [] && !IsSpace(s[0])
    ensures LStrip(lead + s) == s
    decreases |lead|
  {
    if lead == [] {
      assert lead + s == s;
    } else {
      var t := lead + s;
      assert t[0] == lead[0] && IsSpace(t[0]);
      assert LStrip(t) == LStrip(t[1..]);
      assert t[1..] == lead[1..] + s;
      LStripLeading(lead[1..], s);
    }
  }

  /** rstrip() removes exactly the trailing whitespace after a non-whitespace character. */
  lemma {:induction false} RStripTrailing(s: string, trail: string)
    requires AllSpace(trail) && s != [] && !IsSpace(s[|s| - 1])
    ensures RStrip(s + trail) == s
    decreases |trail|
  {
    if trail == [] {
      assert s + trail == s;
    } else {
      var t := trail[..|trail| - 1];
      var u := s + trail;
      assert u[|u| - 1] == trail[|trail| - 1] && IsSpace(u[|u| - 1]);
      assert RStrip(u) == RStrip(u[..|u| - 1]);
      assert u[..|u| - 1] == s + t;
      RStripTrailing(s, t);
    }
  }

  /** strip() of a word padded with whitespace is the word. */
  lemma StripPadded(lead: string, s: string, trail: string)
    requires AllSpace(lead) && AllSpace(trail)
    requires s != [] && !IsSpace(s[0]) && !IsSpace(s[|s| - 1])
    ensures Strip(lead + s + trail) == s
  {
    assert lead + s + trail == lead + (s + trail);
    LStripLeading(lead, s + trail);
    RStripTrailing(s, trail);
  }

  /** Length of the run of non-whitespace characters at the start of `s`. */
  function WordLen(s: string): (n: nat)
    ensures n <= |s| && NoSpace(s[..n])
    ensures n == |s| || IsSpace(s[n])
  {
    if s == [] || IsSpace(s[0]) then 0 else 1 + WordLen(s[1..])
  }

  /** `s.split()` with no separator: the maximal runs of non-whitespace characters, in order. */
  function Split(s: string): (words: seq<string>)
    decreases |s|
    ensures forall i | 0 <= i < |words| :: words[i] != [] && NoSpace(words[i])
  {
    if s == [] then []
    else if IsSpace(s[0]) then Split(s[1..])
    else
      var n := WordLen(s);
      [s[..n]] + Split(s[n..])
  }

  /** The first whitespace position is unique, so WordLen is determined by it. */
  lemma WordLenAt(s: string, k: nat)
    requires k <= |s| && NoSpace(s[..k])
    requires k == |s| || IsSpace(s[k])
    ensures WordLen(s) == k
  {
    var n := WordLen(s);
    assert forall j | 0 <= j < k :: s[..k][j] == s[j];
    assert forall j | 0 <= j < n :: s[..n][j] == s[j];
  }

  /** split() of a single word is that word. */
  lemma SplitWord(w: string)
    requires w != [] && NoSpace(w)
    ensures Split(w) == [w]
  {
    assert w[..|w|] == w;
    WordLenAt(w, |w|);
    assert w[|w|..] == [];
  }

  /** split() finds nothing in whitespace. */
  lemma {:induction false} SplitSpaces(s: string)
    requires AllSpace(s)
    ensures Split(s) == []
    decreases |s|
  {
    if s != [] {
      SplitSpaces(s[1..]);
    }
  }

  /** A whitespace character separates: split() of `a c b` is split(a) followed by split(b). */
  lemma {:induction false} SplitAcross(a: string, c: char, b: string)
    requires IsSpace(c)
    ensures Split(a + [c] + b) == Split(a) + Split(b)
    decreases |a|
  {
    var s := a + [c] + b;
    if a == [] {
      assert s[1..] == b;
    } else if IsSpace(a[0]) {
      assert s[1..] == a[1..] + [c] + b;
      SplitAcross(a[1..], c, b);
    } else {
      var m := WordLen(a);
      assert s[..m] == a[..m];
      if m == |a| {
        assert s[m] == c;
      } else {
        assert s[m] == a[m];
      }
      WordLenAt(s, m);
      assert m > 0;
      assert s[m..] == a[m..] + [c] + b;
      SplitAcross(a[m..], c, b);
    }
  }

  /** A word followed only by whitespace splits into that word. */
  lemma SplitWordTrail(w: string, trail: string)
    requires w != [] && NoSpace(w) && AllSpace(trail)
    ensures Split(w + trail) == [w]
  {
    SplitWord(w);
    if trail != [] {
      assert w + trail == w + [trail[0]] + trail[1..];
      SplitAcross(w, trail[0], trail[1..]);
      SplitSpaces(trail[1..]);
    } else {
      assert w + trail == w;
    }
  }

  /** A word, whitespace, and then the rest: the word comes first and the rest follows. */
  lemma SplitWordSep(w: string, sep: string, rest: string)
    requires w != [] && NoSpace(w) && AllSpace(sep) && sep != []
    ensures Split(w + sep + rest) == [w] + Split(rest)
  {
    var afterSep := sep[1..] + rest;
    assert w + sep + rest == w + [sep[0]] + afterSep;
    SplitAcross(w, sep[0], afterSep);
    SplitWord(w);
    SplitLeading(sep[1..], rest);
  }

  /** split() of whitespace, a word, whitespace, a word and whitespace is the two words; the
      shape of a well-formed two-part header. */
  lemma SplitTwoWords(lead: string, w1: string, sep: string, w2: string, trail: string)
    requires AllSpace(lead) && AllSpace(trail) && AllSpace(sep) && sep != []
    requires w1 != [] && NoSpace(w1) && w2 != [] && NoSpace(w2)
    ensures Split(lead + w1 + sep + w2 + trail) == [w1, w2]
  {
    var tail := w2 + trail;
    var body := w1 + sep + tail;
    var whole := lead + w1 + sep + w2 + trail;
    assert whole == lead + body by {
      assert w1 + sep + w2 + trail == body;
    }
    assert Split(body) == [w1, w2] by {
      SplitWordSep(w1, sep, tail);
      SplitWordTrail(w2, trail);
    }
    SplitLeading(lead, body);
  }

  /** Leading whitespace does not change split(). */
  lemma {:induction false} SplitLeading(sp: string, s: string)
    requires AllSpace(sp)
    ensures Split(sp + s) == Split(s)
    decreases |sp|
  {
    if sp != [] {
      var t := sp + s;
      assert t[0] == sp[0] && IsSpace(t[0]);
      assert t[1..] == sp[1..] + s;
      assert Split(t) == Split(t[1..]);
      SplitLeading(sp[1..], s);
    } else {
      assert sp + s == s;
    }
  }

  /** `s.split(sep, 1)[1]` for a one-character separator: the text after its first occurrence,
      or None where Python's indexing would raise. */
  function AfterFirst(s: string, sep: char): (r: Option<string>)
    decreases |s|
    ensures r.Some? <==> sep in s
  {
    if s == [] then None else if s[0] == sep then Some(s[1..]) else AfterFirst(s[1..], sep)
  }

  /** When the prefix holds no separator and is followed by one, the text after the first
      separator is what follows that prefix. */
  lemma {:induction false} AfterFirstPrefix(p: string, sep: char, rest: string)
    requires sep !in p
    ensures AfterFirst(p + [sep] + rest, sep) == Some(rest)
    decreases |p|
  {
    if p == [] {
      assert (p + [sep] + rest)[1..] == rest;
    } else {
      assert (p + [sep] + rest)[1..] == p[1..] + [sep] + rest;
      AfterFirstPrefix(p[1..], sep, rest);
    }
  }

  /** `s.split(sep, 1)[1]` for a separator of any non-zero length: the text after the first
      occurrence of `sep`, or None where Python's indexing would raise. */
  function SplitOnceTail(s: string, sep: string): (r: Option<string>)
    requires sep != []
    decreases |s|
    ensures StartsWith(s, sep) ==> r == Some(s[|sep|..])
    ensures r.Some? ==> |r.value| <= |s| - |sep| && StartsWith(s[|s| - |r.value| - |sep|..], sep)
  {
    if |s| < |sep| then None
    else if s[..|sep|] == sep then Some(s[|sep|..])
    else
      var r := SplitOnceTail(s[1..], sep);
      if r.Some? then
        assert s[1..][|s[1..]| - |r.value| - |sep|..] == s[|s| - |r.value| - |sep|..];
        r
      else r
  }

  /** `pat` occurs in `s` starting at index `i`. */
  predicate OccursAt(s: string, pat: string, i: int)
  {
    0 <= i && i + |pat| <= |s| && s[i..i + |pat|] == pat
  }

  /** `s.replace(pat, rep)`: every non-overlapping occurrence, scanning left to right. */
  function Replace(s: string, pat: string, rep: string): string
    requires pat != []
    decreases |s|
  {
    if |s| < |pat| then s
    else if s[..|pat|] == pat then rep + Replace(s[|pat|..], pat, rep)
    else [s[0]] + Replace(s[1..], pat, rep)
  }

  /** replace() leaves a string without occurrences as it is. */
  lemma {:induction false} ReplaceAbsent(s: string, pat: string, rep: string)
    requires pat != []
    requires forall i :: !OccursAt(s, pat, i)
    ensures Replace(s, pat, rep) == s
    decreases |s|
  {
    if |s| >= |pat| {
      assert !OccursAt(s, pat, 0);
      forall i ensures !OccursAt(s[1..], pat, i) {
        if 0 <= i && i + |pat| <= |s| - 1 {
          assert s[1..][i..i + |pat|] == s[i + 1..i + 1 + |pat|];
          assert !OccursAt(s, pat, i + 1);
        }
      }
      ReplaceAbsent(s[1..], pat, rep);
    }
  }

  /** No occurrence before the end in `p + pat` means none before the end in its tail either. */
  lemma NoEarlyOccurrenceInTail(p: string, pat: string)
    requires p != [] && pat != []
    requires forall i | 0 <= i < |p| :: !OccursAt(p + pat, pat, i)
    ensures forall i | 0 <= i < |p| - 1 :: !OccursAt(p[1..] + pat, pat, i)
  {
    var s := p + pat;
    forall i | 0 <= i < |p| - 1 ensures !OccursAt(p[1..] + pat, pat, i) {
      assert (p[1..] + pat)[i..i + |pat|] == s[i + 1..i + 1 + |pat|];
      assert !OccursAt(s, pat, i + 1);
    }
  }

  /** When `pat` occurs in `p + pat` only at the end, replace() rewrites exactly that
      occurrence. */
  lemma {:induction false} ReplaceAtEnd(p: string, pat: string, rep: string)
    requires pat != []
    requires forall i | 0 <= i < |p| :: !OccursAt(p + pat, pat, i)
    ensures Replace(p + pat, pat, rep) == p + rep
    decreases |p|
  {
    var s := p + pat;
    if p == [] {
      assert s == pat && s[..|pat|] == pat && s[|pat|..] == [];
    } else {
      assert !OccursAt(s, pat, 0);
      assert s[..|pat|] != pat by {
        assert s[..|pat|] == s[0..0 + |pat|];
      }
      assert s[1..] == p[1..] + pat;
      NoEarlyOccurrenceInTail(p, pat);
      ReplaceAtEnd(p[1..], pat, rep);
      assert Replace(s, pat, rep) == [s[0]] + Replace(s[1..], pat, rep);
      assert [p[0]] + (p[1..] + rep) == p + rep;
    }
  }

  /** `s.rstrip(c)`: a prefix of `s` that does not end with `c`, followed in `s` only by `c`. */
  function RStripChar(s: string, c: char): (r: string)
    decreases |s|
    ensures |r| <= |s| && r == s[..|r|]
    ensures r == [] || r[|r| - 1] != c
    ensures forall i | |r| <= i < |s| :: s[i] == c
  {
    if s != [] && s[|s| - 1] == c then RStripChar(s[..|s| - 1], c) else s
  }

  /** `sep.join(parts)`. */
  function Join(parts: seq<string>, sep: string): string
  {
    if |parts| == 0 then ""
    else if |parts| == 1 then parts[0]
    else parts[0] + sep + Join(parts[1..], sep)
  }
}
