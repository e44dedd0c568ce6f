/** The handful of Rust `str` operations the bridge relies on, written out with
    the same semantics: `split(char)`, `replace(pat, "")`, `trim_end_matches(pat)`,
    `starts_with`/`ends_with`, and decimal formatting of a number. */
module Strings {

  predicate StartsWith(s: string, p: string) {
    |p| <= |s| && s[..|p|] == p
  }

  predicate EndsWith(s: string, p: string) {
    |p| <= |s| && s[|s| - |p|..] == p
  }

  /** `s.contains(p)` for a non-empty pattern. */
  predicate Contains(s: string, p: string)
    decreases |s|
  {
    StartsWith(s, p) || (|s| > 0 && Contains(s[1..], p))
  }

  // ---------------------------------------------------------------------------
  // split

  /** `s.split(d).collect::<Vec<_>>()`: always at least one piece. */
  function Split(s: string, d: char): (r: seq<string>)
    ensures |r| >= 1
    decreases |s|
  {
    if |s| == 0 then [""]
    else if s[0] == d then [""] + Split(s[1..], d)
    else
      var rest := Split(s[1..], d);
      [[s[0]] + rest[0]] + rest[1..]
  }

  /** No piece holds the separator. */
  lemma {:induction false} SplitPiecesAvoid(s: string, d: char)
    ensures forall i :: 0 <= i < |Split(s, d)| ==> d !in Split(s, d)[i]
    decreases |s|
  {
    if |s| > 0 {
      SplitPiecesAvoid(s[1..], d);
      if s[0] != d {
        var rest := Split(s[1..], d);
        assert d !in [s[0]] + rest[0];
      }
    }
  }

  /** `parts.join(d)`: the pieces with `d` between neighbours. */
  function Join(parts: seq<string>, d: char): string
    requires |parts| >= 1
    decreases |parts|
  {
    if |parts| == 1 then parts[0] else parts[0] + [d] + Join(parts[1..], d)
  }

  /** Splitting loses nothing: joining the pieces gives the input back. */
  lemma {:induction false} JoinSplit(s: string, d: char)
    ensures Join(Split(s, d), d) == s
    decreases |s|
  {
    if |s| == 0 {
    } else if s[0] == d {
      JoinSplit(s[1..], d);
      assert s == [d] + s[1..];
    } else {
      JoinSplit(s[1..], d);
      var rest := Split(s[1..], d);
      if |rest| == 1 {
        assert s == [s[0]] + s[1..];
      } else {
        assert Join(rest, d) == rest[0] + [d] + Join(rest[1..], d);
        assert s == [s[0]] + s[1..];
        assert ([s[0]] + rest[0]) + [d] + Join(rest[1..], d) == [s[0]] + (rest[0] + [d] + Join(rest[1..], d));
      }
    }
  }

  /** Splitting a piece that holds no separator, followed by the separator and more text. */
  lemma {:induction false} SplitPrefix(a: string, d: char, b: string)
    requires d !in a
    ensures Split(a + [d] + b, d) == [a] + Split(b, d)
    decreases |a|
  {
    if |a| == 0 {
      assert a + [d] + b == [d] + b;
      assert ([d] + b)[1..] == b;
    } else {
      SplitPrefix(a[1..], d, b);
      assert (a + [d] + b)[1..] == a[1..] + [d] + b;
      assert [a[0]] + a[1..] == a;
    }
  }

  /** A piece without the separator splits to itself. */
  lemma {:induction false} SplitNoSeparator(a: string, d: char)
    requires d !in a
    ensures Split(a, d) == [a]
    decreases |a|
  {
    if |a| > 0 {
      SplitNoSeparator(a[1..], d);
      assert [a[0]] + a[1..] == a;
    }
  }

  /** Joining pieces that hold no separator and splitting again gives the pieces back. */
  lemma {:induction false} SplitJoin(parts: seq<string>, d: char)
    requires |parts| >= 1
    requires forall i :: 0 <= i < |parts| ==> d !in parts[i]
    ensures Split(Join(parts, d), d) == parts
    decreases |parts|
  {
    if |parts| == 1 {
      SplitNoSeparator(parts[0], d);
    } else {
      SplitJoin(parts[1..], d);
      SplitPrefix(parts[0], d, Join(parts[1..], d));
      assert parts == [parts[0]] + parts[1..];
    }
  }

  /** A leading separator starts with an empty piece. */
  lemma SplitSeparatorFirst(d: char, t: string)
    ensures Split([d] + t, d) == [""] + Split(t, d)
  {
    assert ([d] + t)[1..] == t;
  }

  /** The list algebra behind SplitConcatStep when the first character is the separator. */
  lemma PrependEmpty(x: seq<string>, y: seq<string>, p: seq<string>, q: seq<string>)
    requires x == [""] + (p + q) && y == [""] + p
    ensures x == y + q
  {
  }

  /** The list algebra behind SplitConcatStep when the first character joins the
      first piece. */
  lemma JoinFirstPiece(c: char, x: seq<string>, y: seq<string>, p: seq<string>, q: seq<string>)
    requires |p| >= 1
    requires x == [[c] + (p + q)[0]] + (p + q)[1..] && y == [[c] + p[0]] + p[1..]
    ensures x == y + q
  {
    assert (p + q)[0] == p[0];
    assert (p + q)[1..] == p[1..] + q;
  }

  /** The inductive step of SplitConcat: the first character of `a` goes where it
      would have gone without `b`. */
  lemma SplitConcatStep(a: string, d: char, b: string)
    requires |a| > 0
    requires Split(a[1..] + [d] + b, d) == Split(a[1..], d) + Split(b, d)
    ensures Split(a + [d] + b, d) == Split(a, d) + Split(b, d)
  {
    var s := a + [d] + b;
    assert s[0] == a[0] && s[1..] == a[1..] + [d] + b;
    if a[0] == d {
      PrependEmpty(Split(s, d), Split(a, d), Split(a[1..], d), Split(b, d));
    } else {
      JoinFirstPiece(a[0], Split(s, d), Split(a, d), Split(a[1..], d), Split(b, d));
    }
  }

  /** Splitting two texts joined by the separator gives the pieces of each, in order. */
  lemma {:induction false} SplitConcat(a: string, d: char, b: string)
    ensures Split(a + [d] + b, d) == Split(a, d) + Split(b, d)
    decreases |a|
  {
    if |a| == 0 {
      assert a + [d] + b == [d] + b;
      SplitSeparatorFirst(d, b);
    } else {
      SplitConcat(a[1..], d, b);
      SplitConcatStep(a, d, b);
    }
  }

  /** `split` yields more than one piece exactly when the separator occurs. */
  lemma SplitSingle(s: string, d: char)
    ensures |Split(s, d)| == 1 <==> d !in s
  {
    if d !in s {
      SplitNoSeparator(s, d);
    } else {
      JoinSplit(s, d);
    }
  }

  // ---------------------------------------------------------------------------
  // replace(pat, "")

  /** `s.replace(pat, "")`: scans left to right and drops each non-overlapping
      occurrence of `pat`; text produced by a removal is not scanned again. */
  function RemoveAll(s: string, pat: string): (r: string)
    requires |pat| > 0
    ensures |r| <= |s|
    decreases |s|
  {
    if |s| < |pat| then s
    else if s[..|pat|] == pat then RemoveAll(s[|pat|..], pat)
    else [s[0]] + RemoveAll(s[1..], pat)
  }

  /** Text that lacks some character of the pattern is left as it is. */
  lemma {:induction false} RemoveAllAbsent(s: string, pat: string, c: char)
    requires |pat| > 0 && c in pat && c !in s
    ensures RemoveAll(s, pat) == s
    decreases |s|
  {
    if |s| >= |pat| {
      assert s[..|pat|] != pat by {
        var k :| 0 <= k < |pat| && pat[k] == c;
        assert s[..|pat|][k] == s[k];
      }
      RemoveAllAbsent(s[1..], pat, c);
      assert [s[0]] + s[1..] == s;
    }
  }

  /** A leading occurrence of the pattern is removed and the scan goes on after it. */
  lemma RemoveAllLeading(pat: string, s: string)
    requires |pat| > 0
    ensures RemoveAll(pat + s, pat) == RemoveAll(s, pat)
  {
    assert (pat + s)[..|pat|] == pat;
    assert (pat + s)[|pat|..] == s;
  }

  /** Text in which the pattern cannot start is copied before the scan reaches the rest. */
  lemma {:induction false} RemoveAllNoStart(t: string, rest: string, pat: string)
    requires |pat| > 0 && pat[0] !in t
    ensures RemoveAll(t + rest, pat) == t + RemoveAll(rest, pat)
    decreases |t|
  {
    if |t| > 0 {
      var s := t + rest;
      assert s[1..] == t[1..] + rest;
      RemoveAllNoStart(t[1..], rest, pat);
      assert [t[0]] + t[1..] == t;
      if |s| >= |pat| {
        assert s[..|pat|] != pat by {
          assert s[..|pat|][0] == t[0];
        }
        calc {
          RemoveAll(s, pat);
          [s[0]] + RemoveAll(s[1..], pat);
          [t[0]] + (t[1..] + RemoveAll(rest, pat));
          ([t[0]] + t[1..]) + RemoveAll(rest, pat);
        }
      } else {
        RemoveAllShort(s, pat);
        RemoveAllShort(rest, pat);
      }
    } else {
      assert t + rest == rest;
    }
  }

  lemma RemoveAllShort(s: string, pat: string)
    requires |pat| > 0 && |s| < |pat|
    ensures RemoveAll(s, pat) == s
  {
  }

  /** One pass is not a closure: removing "ab" from "aabb" leaves "ab". */
  lemma RemoveAllSinglePass()
    ensures RemoveAll("aabb", "ab") == "ab"
  {
    assert "aabb"[..2] == "aa";
    assert "aabb"[1..] == "abb";
    assert "abb"[..2] == "ab";
    assert "abb"[2..] == "b";
    assert [('a' as char)] + "b" == "ab";
  }

  // ---------------------------------------------------------------------------
  // trim_end_matches

  /** `k` copies of `p`, one after the other. */
  function Repeat(p: string, k: nat): string
    decreases k
  {
    if k == 0 then "" else Repeat(p, k - 1) + p
  }

  /** Copies of `p` hold no character that `p` does not hold. */
  lemma {:induction false} RepeatAvoids(p: string, k: nat, c: char)
    requires c !in p
    ensures c !in Repeat(p, k)
    decreases k
  {
    if k > 0 {
      RepeatAvoids(p, k - 1, c);
    }
  }

  /** `s.trim_end_matches(suf)`: strips `suf` from the end for as long as it matches. */
  function TrimEndMatches(s: string, suf: string): (r: string)
    requires |suf| > 0
    ensures !EndsWith(r, suf)
    ensures |r| <= |s| && s[..|r|] == r
    decreases |s|
  {
    if EndsWith(s, suf) then TrimEndMatches(s[..|s| - |suf|], suf) else s
  }

  /** What trim_end_matches removed is a whole number of copies of the suffix. */
  lemma {:induction false} TrimEndMatchesRemovesCopies(s: string, suf: string) returns (k: nat)
    requires |suf| > 0
    ensures s == TrimEndMatches(s, suf) + Repeat(suf, k)
    decreases |s|
  {
    if EndsWith(s, suf) {
      var s' := s[..|s| - |suf|];
      var k' := TrimEndMatchesRemovesCopies(s', suf);
      assert s == s' + suf;
      k := k' + 1;
    } else {
      k := 0;
    }
  }

  lemma RepeatAppend(r: string, p: string, k: nat)
    requires k > 0
    ensures r + Repeat(p, k) == (r + Repeat(p, k - 1)) + p
  {
  }

  /** One trailing copy of the suffix is trimmed like the rest. */
  lemma TrimEndMatchesOne(x: string, suf: string)
    requires |suf| > 0
    ensures TrimEndMatches(x + suf, suf) == TrimEndMatches(x, suf)
  {
    var s := x + suf;
    assert s[|s| - |suf|..] == suf;
    assert s[..|s| - |suf|] == x;
  }

  /** Appending any number of copies of the suffix to a text that does not end
      with it, then trimming, gives that text back. */
  lemma {:induction false} TrimEndMatchesRepeat(r: string, suf: string, k: nat)
    requires |suf| > 0 && !EndsWith(r, suf)
    ensures TrimEndMatches(r + Repeat(suf, k), suf) == r
    decreases k
  {
    if k == 0 {
      assert r + Repeat(suf, 0) == r;
    } else {
      RepeatAppend(r, suf, k);
      TrimEndMatchesOne(r + Repeat(suf, k - 1), suf);
      TrimEndMatchesRepeat(r, suf, k - 1);
    }
  }

  // ---------------------------------------------------------------------------
  // decimal formatting

  function DigitChar(d: nat): (c: char)
    requires d < 10
    ensures '0' <= c <= '9'
  {
    ('0' as int + d) as char
  }

  /** `format!("{}", n)` for an unsigned integer. */
  function NatToDecimal(n: nat): (r: string)
    ensures |r| >= 1
    ensures forall i :: 0 <= i < |r| ==> '0' <= r[i] <= '9'
    decreases n
  {
    if n < 10 then [DigitChar(n)] else NatToDecimal(n / 10) + [DigitChar(n % 10)]
  }
}
