/**
 * The pieces of Python 2 string and list semantics that the harvester
 * code depends on: substring tests, `str.find`, `str.split`, `str.replace`,
 * `str.strip`, `'/'.join`, `str(int)`, `list.remove` and the
 * "append if not already present" idiom used for de-duplication.
 */
module PyText {

  datatype Option<T> = None | Some(value: T)

  // ---------------------------------------------------------------------
  // Substrings
  // ---------------------------------------------------------------------

  /** `sub` occurs in `s` starting at index `i`. */
  predicate OccursAt(s: string, sub: string, i: int)
  {
    0 <= i && i + |sub| <= |s| && s[i..i + |sub|] == sub
  }

  /** Python's `sub in s` for two strings. */
  predicate Contains(s: string, sub: string)
  {
    exists i | 0 <= i <= |s| - |sub| :: OccursAt(s, sub, i)
  }

  /** Every character of a contained string is a character of the containing one. */
  lemma ContainedChars(s: string, sub: string)
    requires Contains(s, sub)
    ensures forall c | c in sub :: c in s
  {
    var i :| 0 <= i <= |s| - |sub| && OccursAt(s, sub, i);
    forall c | c in sub
      ensures c in s
    {
      var k :| 0 <= k < |sub| && sub[k] == c;
      assert s[i..i + |sub|][k] == s[i + k];
    }
  }

  /** A string that lacks one of `sub`'s characters does not contain `sub`. */
  lemma MissingCharNotContained(s: string, sub: string, c: char)
    ensures c in sub && c !in s ==> !Contains(s, sub)
  {
    if Contains(s, sub) {
      ContainedChars(s, sub);
    }
  }

  /** Python's `s.find(sub, from)`, with `None` standing for -1. */
  function FindFrom(s: string, sub: string, from: nat): (r: Option<nat>)
    decreases |s| - from
    ensures r.Some? ==> from <= r.value && OccursAt(s, sub, r.value)
    ensures r.Some? ==> forall j :: from <= j < r.value ==> !OccursAt(s, sub, j)
    ensures r.None? ==> forall j :: from <= j ==> !OccursAt(s, sub, j)
  {
    if from + |sub| > |s| then None
    else if s[from..from + |sub|] == sub then Some(from)
    else FindFrom(s, sub, from + 1)
  }

  function Find(s: string, sub: string): (r: Option<nat>)
    ensures r.Some? <==> Contains(s, sub)
    ensures r.Some? ==> OccursAt(s, sub, r.value)
    ensures r.Some? ==> forall j :: 0 <= j < r.value ==> !OccursAt(s, sub, j)
  {
    var r := FindFrom(s, sub, 0);
    if r.Some? then
      assert OccursAt(s, sub, r.value);
      r
    else
      r
  }

  lemma OccursInSlice(s: string, sub: string, lo: nat, hi: nat, j: nat)
    requires lo <= hi <= |s|
    requires OccursAt(s[lo..hi], sub, j)
    ensures OccursAt(s, sub, lo + j)
  {
    var t := s[lo..hi];
    assert j + |sub| <= |t| && t[j..j + |sub|] == sub;
    forall k | 0 <= k < |sub|
      ensures s[lo + j..lo + j + |sub|][k] == sub[k]
    {
      assert t[j..j + |sub|][k] == t[j + k] == s[lo + j + k];
    }
    assert s[lo + j..lo + j + |sub|] == sub;
  }

  /**
   * Python's `s.split(sep)[1]`: the text between the first occurrence of
   * `sep` and the next one (or the end of `s`).  The caller guards the call
   * with `sep in s`, so the index 1 exists.
   */
  function SplitSecond(s: string, sep: string): (r: string)
    requires |sep| > 0 && Contains(s, sep)
    ensures var i := Find(s, sep).value;
      i + |sep| + |r| <= |s| && s[i + |sep|..i + |sep| + |r|] == r
    ensures !Contains(r, sep)
    ensures var i := Find(s, sep).value;
      i + |sep| + |r| == |s| || OccursAt(s, sep, i + |sep| + |r|)
  {
    var i := Find(s, sep).value;
    var start := i + |sep|;
    var next := FindFrom(s, sep, start);
    var stop := if next.Some? then next.value else |s|;
    NoSepBeforeNext(s, sep, start, stop);
    s[start..stop]
  }

  lemma NoSepBeforeNext(s: string, sep: string, start: nat, stop: nat)
    requires |sep| > 0 && start <= stop <= |s|
    requires forall j :: start <= j < stop ==> !OccursAt(s, sep, j)
    ensures !Contains(s[start..stop], sep)
  {
    if Contains(s[start..stop], sep) {
      var j :| 0 <= j <= |s[start..stop]| - |sep| && OccursAt(s[start..stop], sep, j);
      OccursInSlice(s, sep, start, stop, j);
    }
  }

  // ---------------------------------------------------------------------
  // str.replace
  // ---------------------------------------------------------------------

  /** Python's `s.replace(pat, rep)`: left to right, non-overlapping. */
  function ReplaceAll(s: string, pat: string, rep: string): string
    requires |pat| > 0
    decreases |s|
  {
    if |s| < |pat| then s
    else if s[..|pat|] == pat then rep + ReplaceAll(s[|pat|..], pat, rep)
    else [s[0]] + ReplaceAll(s[1..], pat, rep)
  }

  /** Every character of the result comes from `s` or from `rep`. */
  lemma {:induction false} ReplaceAllChars(s: string, pat: string, rep: string)
    requires |pat| > 0
    ensures forall c :: c in ReplaceAll(s, pat, rep) ==> c in s || c in rep
    decreases |s|
  {
    if |s| < |pat| {
    } else if s[..|pat|] == pat {
      ReplaceAllChars(s[|pat|..], pat, rep);
      forall c | c in ReplaceAll(s, pat, rep) ensures c in s || c in rep {
        if c !in rep {
          assert c in ReplaceAll(s[|pat|..], pat, rep);
          assert c in s[|pat|..];
        }
      }
    } else {
      ReplaceAllChars(s[1..], pat, rep);
      forall c | c in ReplaceAll(s, pat, rep) ensures c in s || c in rep {
        if c != s[0] && c !in rep {
          assert c in ReplaceAll(s[1..], pat, rep);
          assert c in s[1..];
        }
      }
    }
  }

  /** Replacing a single character by text without it removes it entirely. */
  lemma {:induction false} ReplaceCharRemoves(s: string, pat: char, rep: string)
    requires pat !in rep
    ensures pat !in ReplaceAll(s, [pat], rep)
    decreases |s|
  {
    if |s| >= 1 {
      ReplaceCharRemoves(s[1..], pat, rep);
    }
  }

  /** `s` with every occurrence of `c` deleted. */
  function Without(s: string, c: char): (r: string)
    ensures c !in r
    decreases |s|
  {
    if |s| == 0 then []
    else (if s[0] == c then [] else [s[0]]) + Without(s[1..], c)
  }

  /** Deleting `c` keeps every other character and adds none. */
  lemma {:induction false} WithoutChars(s: string, c: char)
    ensures forall d :: d in Without(s, c) <==> d in s && d != c
    decreases |s|
  {
    if |s| > 0 {
      WithoutChars(s[1..], c);
      assert s == [s[0]] + s[1..];
    }
  }

  /** Replacing a character by nothing deletes exactly that character. */
  lemma {:induction false} ReplaceCharDeletes(s: string, c: char)
    ensures ReplaceAll(s, [c], "") == Without(s, c)
    decreases |s|
  {
    if |s| > 0 {
      ReplaceCharDeletes(s[1..], c);
      assert s[..1] == [s[0]];
    }
  }

  /** `s.endswith(suffix)`. */
  predicate EndsWith(s: string, suffix: string)
  {
    |suffix| <= |s| && s[|s| - |suffix|..] == suffix
  }

  /** A replacement by something shorter strictly shrinks a string that contains `pat`. */
  lemma {:induction false} ReplaceAllShrinks(s: string, pat: string, rep: string)
    requires |pat| > 0 && |rep| < |pat|
    ensures |ReplaceAll(s, pat, rep)| <= |s|
    ensures Contains(s, pat) ==> |ReplaceAll(s, pat, rep)| < |s|
    decreases |s|
  {
    if |s| < |pat| {
    } else if s[..|pat|] == pat {
      ReplaceAllShrinks(s[|pat|..], pat, rep);
    } else {
      ReplaceAllShrinks(s[1..], pat, rep);
      if Contains(s, pat) {
        var i :| 0 <= i <= |s| - |pat| && OccursAt(s, pat, i);
        assert i != 0;
        assert s[1..][i - 1..i - 1 + |pat|] == s[i..i + |pat|];
        assert OccursAt(s[1..], pat, i - 1);
      }
    }
  }

  // ---------------------------------------------------------------------
  // strip, rstrip, split on a character, join
  // ---------------------------------------------------------------------

  /** The whitespace set of Python 2's `str.strip()` on a byte string. */
  predicate IsSpace(c: char)
  {
    c == ' ' || c == '\t' || c == '\n' || c == '\r' || c == '\U{B}' || c == '\U{C}'
  }

  /** The whitespace set of Python 2.7's `unicode.strip()` (Unicode 5.2). */
  predicate IsUnicodeSpace(c: char)
  {
    ('\t' <= c <= '\r') || ('\U{1C}' <= c <= ' ') || c == '\U{85}' || c == '\U{A0}'
    || c == '\U{1680}' || c == '\U{180E}' || ('\U{2000}' <= c <= '\U{200A}')
    || c == '\U{2028}' || c == '\U{2029}' || c == '\U{202F}' || c == '\U{205F}' || c == '\U{3000}'
  }

  /** Only 7-bit characters: lxml hands such a value back as a byte string, any other as unicode. */
  predicate IsAscii(s: string)
  {
    |s| == 0 || (s[0] < '\U{80}' && IsAscii(s[1..]))
  }

  /** The whitespace `strip()` removes from `s`, by the type the text arrives in. */
  function WhitespaceOf(s: string): (space: char -> bool)
  {
    if IsAscii(s) then IsSpace else IsUnicodeSpace
  }

  /** Python's `s.lstrip(chars)` for a character class. */
  function LStripWhere(s: string, strip: char -> bool): (r: string)
    ensures |r| <= |s| && r == s[|s| - |r|..]
    ensures r == [] || !strip(r[0])
  {
    if |s| > 0 && strip(s[0]) then LStripWhere(s[1..], strip) else s
  }

  /** `lstrip` removes only characters of the class. */
  lemma {:induction false} LStripWhereRemoved(s: string, strip: char -> bool)
    ensures forall i | 0 <= i < |s| - |LStripWhere(s, strip)| :: strip(s[i])
  {
    if |s| > 0 && strip(s[0]) {
      LStripWhereRemoved(s[1..], strip);
      assert forall i | 1 <= i < |s| :: s[i] == s[1..][i - 1];
    }
  }

  /** Python's `s.rstrip(chars)` for a character class. */
  function RStripWhere(s: string, strip: char -> bool): (r: string)
    ensures |r| <= |s| && r == s[..|r|]
    ensures r == [] || !strip(r[|r| - 1])
  {
    if |s| > 0 && strip(s[|s| - 1]) then RStripWhere(s[..|s| - 1], strip) else s
  }

  /** `rstrip` removes only characters of the class. */
  lemma {:induction false} RStripWhereRemoved(s: string, strip: char -> bool)
    ensures forall i | |RStripWhere(s, strip)| <= i < |s| :: strip(s[i])
  {
    if |s| > 0 && strip(s[|s| - 1]) {
      RStripWhereRemoved(s[..|s| - 1], strip);
    }
  }

  /** Python's `s.strip(chars)` for a character class. */
  function StripWhere(s: string, space: char -> bool): (r: string)
    ensures r == [] || (!space(r[0]) && !space(r[|r| - 1]))
  {
    RStripWhere(LStripWhere(s, space), space)
  }

  /** Python's `s.strip()`, on a byte string or on unicode. */
  function Strip(s: string): (r: string)
    ensures r == [] || (!WhitespaceOf(s)(r[0]) && !WhitespaceOf(s)(r[|r| - 1]))
  {
    StripWhere(s, WhitespaceOf(s))
  }

  /** A no-break space is white space only in unicode: `u'\xa0'.strip()` is empty. */
  lemma NoBreakSpaceStripped()
    ensures Strip("\U{A0}") == ""
    ensures Strip("a\U{A0}") == "a"
  {
    assert "\U{A0}"[0] == '\U{A0}' && "a\U{A0}"[1] == '\U{A0}';
    assert "a\U{A0}"[..1] == "a";
  }

  /** An ASCII file separator is not white space in a byte string, so `'\x1c'.strip()` keeps it. */
  lemma FileSeparatorKept()
    ensures Strip("\U{1C}") == "\U{1C}"
  {
    assert IsAscii("\U{1C}");
  }

  /** Every character of `s[lo..hi]` is in the class. */
  predicate AllIn(s: string, lo: int, hi: int, space: char -> bool)
  {
    forall i | 0 <= lo <= i < hi <= |s| :: space(s[i])
  }

  /** Stripping with a class leaves a substring with only class characters around it. */
  lemma StripWhereRemoved(s: string, space: char -> bool)
    ensures exists k | 0 <= k <= |s| - |StripWhere(s, space)| ::
      OccursAt(s, StripWhere(s, space), k)
      && AllIn(s, 0, k, space) && AllIn(s, k + |StripWhere(s, space)|, |s|, space)
  {
    var left := LStripWhere(s, space);
    var r := RStripWhere(left, space);
    var k := |s| - |left|;
    LStripWhereRemoved(s, space);
    RStripWhereRemoved(left, space);
    assert s[k..k + |r|] == r;
    forall i | k + |r| <= i < |s|
      ensures space(s[i])
    {
      assert s[i] == left[i - k];
    }
    assert OccursAt(s, r, k) && AllIn(s, 0, k, space) && AllIn(s, k + |r|, |s|, space);
  }

  /**
   * `strip()` removes exactly a run of white space at each end: what is
   * left occurs at some offset `k` of the argument, and everything before
   * and after it is white space of the argument's own type.
   */
  lemma StripContained(s: string)
    ensures Contains(s, Strip(s))
    ensures forall c :: c in Strip(s) ==> c in s
    ensures exists k | 0 <= k <= |s| - |Strip(s)| ::
      OccursAt(s, Strip(s), k)
      && AllIn(s, 0, k, WhitespaceOf(s)) && AllIn(s, k + |Strip(s)|, |s|, WhitespaceOf(s))
  {
    StripWhereRemoved(s, WhitespaceOf(s));
    ContainedChars(s, Strip(s));
  }

  /** Python's `s.split(c)` for a one-character separator. */
  function SplitChar(s: string, c: char): (parts: seq<string>)
    ensures |parts| >= 1
    ensures forall k :: 0 <= k < |parts| ==> c !in parts[k]
    decreases |s|
  {
    if |s| == 0 then [[]]
    else
      var rest := SplitChar(s[1..], c);
      if s[0] == c then [[]] + rest
      else [[s[0]] + rest[0]] + rest[1..]
  }

  /** Python's `sep.join(parts)`. */
  function Join(sep: string, parts: seq<string>): string
  {
    if |parts| == 0 then []
    else if |parts| == 1 then parts[0]
    else parts[0] + sep + Join(sep, parts[1..])
  }

  /** Joining the pieces of a split with the same separator gives the original back. */
  lemma {:induction false} JoinSplitChar(s: string, c: char)
    ensures Join([c], SplitChar(s, c)) == s
    decreases |s|
  {
    if |s| > 0 {
      JoinSplitChar(s[1..], c);
      var rest := SplitChar(s[1..], c);
      if s[0] == c {
        assert s == [c] + s[1..];
      } else {
        if |rest| == 1 {
          assert s == [s[0]] + rest[0];
        } else {
          assert Join([c], rest) == rest[0] + [c] + Join([c], rest[1..]);
          assert s == [s[0]] + s[1..];
        }
      }
    }
  }

  /** The non-empty strings of `parts`, in order. */
  function NonEmpty(parts: seq<string>): (r: seq<string>)
    ensures forall i | 0 <= i < |r| :: r[i] != ""
  {
    if |parts| == 0 then []
    else NonEmpty(parts[..|parts| - 1]) + (if parts[|parts| - 1] == "" then [] else [parts[|parts| - 1]])
  }

  /** Joining one more part appends the separator and the part. */
  lemma {:induction false} JoinAppend(sep: string, parts: seq<string>, last: string)
    requires |parts| > 0
    ensures Join(sep, parts + [last]) == Join(sep, parts) + sep + last
    decreases |parts|
  {
    if |parts| > 1 {
      JoinAppend(sep, parts[1..], last);
      assert (parts + [last])[1..] == parts[1..] + [last];
    }
  }

  // ---------------------------------------------------------------------
  // str(int)
  // ---------------------------------------------------------------------

  function DigitChar(d: nat): (c: char)
    requires d < 10
    ensures '0' <= c <= '9'
  {
    "0123456789"[d]
  }

  /** Python's `str(n)` for a non-negative integer. */
  function IntToStr(n: nat): (r: string)
    ensures |r| >= 1
    ensures forall c :: c in r ==> '0' <= c <= '9'
  {
    if n < 10 then [DigitChar(n)] else IntToStr(n / 10) + [DigitChar(n % 10)]
  }

  // ---------------------------------------------------------------------
  // Lists
  // ---------------------------------------------------------------------

  predicate NoDuplicates<T(==)>(xs: seq<T>)
  {
    forall i, j :: 0 <= i < j < |xs| ==> xs[i] != xs[j]
  }

  /**
   * The loop `for x in xs: if x not in acc: acc.append(x)`, written from the
   * last element so that a loop invariant can extend it one step at a time.
   */
  function AppendNew<T(==)>(acc: seq<T>, xs: seq<T>): seq<T>
  {
    if |xs| == 0 then acc
    else
      var prior := AppendNew(acc, xs[..|xs| - 1]);
      if xs[|xs| - 1] in prior then prior else prior + [xs[|xs| - 1]]
  }

  /**
   * Appending only new elements keeps `acc` as a prefix, adds exactly the
   * elements of `xs` that are missing, and introduces no duplicate.
   */
  lemma {:induction false} AppendNewSpec<T>(acc: seq<T>, xs: seq<T>)
    ensures |acc| <= |AppendNew(acc, xs)| && AppendNew(acc, xs)[..|acc|] == acc
    ensures forall x :: x in AppendNew(acc, xs) <==> x in acc || x in xs
    ensures NoDuplicates(acc) ==> NoDuplicates(AppendNew(acc, xs))
    decreases |xs|
  {
    if |xs| > 0 {
      var init := xs[..|xs| - 1];
      AppendNewSpec(acc, init);
      forall x ensures x in xs <==> x in init || x == xs[|xs| - 1] {
        assert xs == init + [xs[|xs| - 1]];
      }
    }
  }

  /** Processing `xs + ys` is processing `xs`, then `ys` on what that produced. */
  lemma {:induction false} AppendNewConcat<T>(acc: seq<T>, xs: seq<T>, ys: seq<T>)
    ensures AppendNew(acc, xs + ys) == AppendNew(AppendNew(acc, xs), ys)
    decreases |ys|
  {
    if |ys| == 0 {
      assert xs + ys == xs;
    } else {
      var zs := xs + ys;
      assert zs[..|zs| - 1] == xs + ys[..|ys| - 1];
      assert zs[|zs| - 1] == ys[|ys| - 1];
      AppendNewConcat(acc, xs, ys[..|ys| - 1]);
    }
  }

  /**
   * First-seen order: the new elements appear in the order of their first
   * occurrence in `xs`, each one at most once.
   */
  function FirstOccurrences<T(==)>(acc: seq<T>, xs: seq<T>): seq<T>
    decreases |xs|
  {
    if |xs| == 0 then []
    else if xs[0] in acc then FirstOccurrences(acc, xs[1..])
    else [xs[0]] + FirstOccurrences(acc + [xs[0]], xs[1..])
  }

  /** The append-if-new loop appends exactly the first occurrences, in order. */
  lemma {:induction false} AppendNewIsFirstOccurrences<T>(acc: seq<T>, xs: seq<T>)
    ensures AppendNew(acc, xs) == acc + FirstOccurrences(acc, xs)
    decreases |xs|
  {
    if |xs| > 0 {
      var head := [xs[0]];
      assert xs == head + xs[1..];
      AppendNewConcat(acc, head, xs[1..]);
      assert head[..0] == [];
      if xs[0] in acc {
        assert AppendNew(acc, head) == acc;
        AppendNewIsFirstOccurrences(acc, xs[1..]);
      } else {
        assert AppendNew(acc, head) == acc + [xs[0]];
        AppendNewIsFirstOccurrences(acc + [xs[0]], xs[1..]);
      }
    }
  }

  /** Python's `xs.index(x)`: the position of the first occurrence. */
  function IndexOf<T(==)>(xs: seq<T>, x: T): (i: nat)
    requires x in xs
    ensures i < |xs| && xs[i] == x && x !in xs[..i]
  {
    if xs[0] == x then 0
    else
      var i := IndexOf(xs[1..], x);
      assert xs[..i + 1] == [xs[0]] + xs[1..][..i];
      i + 1
  }

  /** Python's `xs.remove(x)`: the first occurrence goes; `None` is the ValueError. */
  function ListRemove<T(==)>(xs: seq<T>, x: T): (r: Option<seq<T>>)
    ensures r.None? <==> x !in xs
    ensures r.Some? ==> |r.value| == |xs| - 1
    ensures r.Some? ==> forall y :: y in r.value ==> y in xs
  {
    if x in xs then
      var i := IndexOf(xs, x);
      Some(xs[..i] + xs[i + 1..])
    else
      None
  }

  /** `multiset(xs)` loses exactly one copy of the removed element. */
  lemma ListRemoveMultiset<T>(xs: seq<T>, x: T)
    requires x in xs
    ensures multiset(ListRemove(xs, x).value) == multiset(xs) - multiset{x}
  {
    var i := IndexOf(xs, x);
    assert xs == xs[..i] + [x] + xs[i + 1..];
  }

  /** `for y in ys: xs.remove(y)`: `None` when some removal raises ValueError. */
  function RemoveEach<T(==)>(xs: seq<T>, ys: seq<T>): Option<seq<T>>
  {
    if |ys| == 0 then Some(xs)
    else
      match RemoveEach(xs, ys[..|ys| - 1])
      case None => None
      case Some(rest) => ListRemove(rest, ys[|ys| - 1])
  }

  /**
   * The removals all succeed exactly when `ys` asks for no more copies of any
   * element than `xs` holds, and then they take away exactly those copies.
   */
  lemma {:induction false} RemoveEachMultiset<T>(xs: seq<T>, ys: seq<T>)
    ensures RemoveEach(xs, ys).Some? <==> multiset(ys) <= multiset(xs)
    ensures RemoveEach(xs, ys).Some? ==> multiset(RemoveEach(xs, ys).value) == multiset(xs) - multiset(ys)
    decreases |ys|
  {
    if |ys| > 0 {
      var init, y := ys[..|ys| - 1], ys[|ys| - 1];
      assert ys == init + [y];
      assert multiset(ys) == multiset(init) + multiset{y};
      RemoveEachMultiset(xs, init);
      match RemoveEach(xs, init)
      case None =>
        assert !(multiset(init) <= multiset(xs));
      case Some(rest) =>
        if y in rest {
          ListRemoveMultiset(rest, y);
        } else {
          assert multiset(rest)[y] == 0;
          assert multiset(xs)[y] == multiset(init)[y];
          assert multiset(ys)[y] > multiset(xs)[y];
        }
    }
  }

  /** Once a removal raises, the removals after it change nothing. */
  lemma {:induction false} RemoveEachStops<T>(xs: seq<T>, ys: seq<T>, k: nat)
    requires k <= |ys| && RemoveEach(xs, ys[..k]).None?
    ensures RemoveEach(xs, ys).None?
    decreases |ys| - k
  {
    if k == |ys| {
      assert ys[..k] == ys;
    } else {
      assert ys[..k + 1][..k] == ys[..k];
      RemoveEachStops(xs, ys, k + 1);
    }
  }

  /** Python's `s[:n]`. */
  function Truncate(s: string, n: nat): (r: string)
    ensures |r| <= n && |r| <= |s|
    ensures |s| <= n ==> r == s
    ensures r == s[..|r|]
  {
    if |s| > n then s[..n] else s
  }

  /** `[f(x) for x in s[:n] if keep(x)]`. */
  function FilterMap<T, U>(keep: T -> bool, f: T -> U, s: seq<T>, n: nat): (r: seq<U>)
    requires n <= |s|
    ensures |r| <= n
  {
    if n == 0 then []
    else
      var rest := FilterMap(keep, f, s, n - 1);
      if keep(s[n - 1]) then rest + [f(s[n - 1])] else rest
  }

  /** The comprehension holds the images of exactly the entries that pass the test. */
  lemma {:induction false} FilterMapMembers<T, U>(keep: T -> bool, f: T -> U, s: seq<T>, n: nat)
    requires n <= |s|
    ensures forall u :: u in FilterMap(keep, f, s, n) <==> exists j | 0 <= j < n :: keep(s[j]) && u == f(s[j])
  {
    if n > 0 {
      FilterMapMembers(keep, f, s, n - 1);
    }
  }

  /** The loop `for x in s: if keep(x): r.append(f(x))`. */
  method FilterMapLoop<T, U>(keep: T -> bool, f: T -> U, s: seq<T>) returns (r: seq<U>)
    ensures r == FilterMap(keep, f, s, |s|)
  {
    r := [];
    var i := 0;
    while i < |s|
      invariant 0 <= i <= |s|
      invariant r == FilterMap(keep, f, s, i)
    {
      if keep(s[i]) {
        r := r + [f(s[i])];
      }
      i := i + 1;
    }
  }

  /** A list has no more distinct elements than entries. */
  lemma {:induction false} ElementsBound<T>(xs: seq<T>)
    ensures |set x | x in xs| <= |xs|
  {
    if |xs| > 0 {
      ElementsBound(xs[1..]);
      assert (set x | x in xs) == (set x | x in xs[1..]) + {xs[0]};
    }
  }

  /** Concatenation regroups freely. */
  lemma ConcatAssociative<T>(a: seq<T>, b: seq<T>, c: seq<T>)
    ensures a + b + c == a + (b + c)
  {
  }

  /** `(front + last).endswith(last)`. */
  lemma EndsWithAppended(front: string, last: string)
    ensures EndsWith(front + last, last)
  {
    assert (front + last)[|front|..] == last;
  }
}
