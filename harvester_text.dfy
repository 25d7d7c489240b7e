/**
 * The string handling of the harvesters in ckanext/spatial/harvesters.py:
 * tag sanitising, `gen_new_name` (a URL-safe package name that no other
 * package has taken) and `GeminiWafHarvester._extract_urls` (the document
 * links of a web-accessible-folder index page).
 */
module HarvesterText {
  import opened PyText

  // ---------------------------------------------------------------------
  // Tags
  // ---------------------------------------------------------------------

  /** A tag as the package dictionary holds it: `{'name': tag}`. */
  datatype Tag = Tag(name: string)

  /** The longest tag kept. */
  const MaxTagLength: nat := 50

  /** The characters of `[a-zA-Z0-9-_ ]`, the only ones an INSPIRE tag keeps. */
  predicate TagChar(c: char)
  {
    ('a' <= c <= 'z') || ('A' <= c <= 'Z') || ('0' <= c <= '9') || c == '-' || c == '_' || c == ' '
  }

  /** `re.sub('[^a-zA-Z0-9-_ ]*', '', tag)`: the tag's allowed characters, in order. */
  function KeepTagChars(s: string): (r: string)
    ensures |r| <= |s|
    ensures forall c | c in r :: TagChar(c)
    ensures (forall c | c in s :: TagChar(c)) ==> r == s
  {
    if |s| == 0 then []
    else
      var rest := KeepTagChars(s[1..]);
      assert forall c | c in s[1..] :: c in s;
      if TagChar(s[0]) then [s[0]] + rest else rest
  }

  /** The GEMINI path: `tag[:50] if len(tag) > 50 else tag`. */
  function GeminiTag(tag: string): (r: string)
  {
    Truncate(tag, MaxTagLength)
  }

  /** The INSPIRE path: truncated first, then filtered. */
  function InspireTag(tag: string): (r: string)
  {
    KeepTagChars(Truncate(tag, MaxTagLength))
  }

  /**
   * An INSPIRE tag is at most 50 characters of `[a-zA-Z0-9-_ ]`, a tag that
   * already is one is kept as it is, and so sanitising twice changes nothing.
   */
  lemma InspireTagClean(tag: string)
    ensures |InspireTag(tag)| <= MaxTagLength
    ensures forall c | c in InspireTag(tag) :: TagChar(c)
    ensures |tag| <= MaxTagLength && (forall c | c in tag :: TagChar(c)) ==> InspireTag(tag) == tag
    ensures InspireTag(InspireTag(tag)) == InspireTag(tag)
  {
  }

  /** A GEMINI tag is the first (at most) 50 characters of the keyword. */
  lemma GeminiTagPrefix(tag: string)
    ensures |GeminiTag(tag)| == if |tag| <= MaxTagLength then |tag| else MaxTagLength
    ensures GeminiTag(tag) == tag[..|GeminiTag(tag)|]
  {
  }

  /** The tag list, one entry per keyword, in order. */
  function InspireTags(keywords: seq<string>): (r: seq<Tag>)
    ensures |r| == |keywords|
  {
    seq(|keywords|, i requires 0 <= i < |keywords| => Tag(InspireTag(keywords[i])))
  }

  function GeminiTags(keywords: seq<string>): (r: seq<Tag>)
    ensures |r| == |keywords|
  {
    seq(|keywords|, i requires 0 <= i < |keywords| => Tag(GeminiTag(keywords[i])))
  }

  /** The INSPIRE tag loop: `tags.append({'name': tag})` for every sanitised keyword. */
  method BuildInspireTags(keywords: seq<string>) returns (tags: seq<Tag>)
    ensures tags == InspireTags(keywords)
    ensures forall i | 0 <= i < |tags| :: |tags[i].name| <= MaxTagLength && forall c | c in tags[i].name :: TagChar(c)
  {
    tags := [];
    var i := 0;
    while i < |keywords|
      invariant 0 <= i <= |keywords|
      invariant tags == InspireTags(keywords[..i])
    {
      tags := tags + [Tag(InspireTag(keywords[i]))];
      i := i + 1;
    }
    assert keywords[..|keywords|] == keywords;
    forall i | 0 <= i < |tags|
      ensures |tags[i].name| <= MaxTagLength && forall c | c in tags[i].name :: TagChar(c)
    {
      InspireTagClean(keywords[i]);
    }
  }

  /** The GEMINI tag loop: truncation only. */
  method BuildGeminiTags(keywords: seq<string>) returns (tags: seq<Tag>)
    ensures tags == GeminiTags(keywords)
    ensures forall i | 0 <= i < |tags| :: |tags[i].name| <= MaxTagLength && tags[i].name == keywords[i][..|tags[i].name|]
  {
    tags := [];
    var i := 0;
    while i < |keywords|
      invariant 0 <= i <= |keywords|
      invariant tags == GeminiTags(keywords[..i])
    {
      tags := tags + [Tag(GeminiTag(keywords[i]))];
      i := i + 1;
    }
    assert keywords[..|keywords|] == keywords;
  }

  // ---------------------------------------------------------------------
  // gen_new_name
  // ---------------------------------------------------------------------

  /** The largest suffix tried. */
  const MaxSuffix: nat := 1000000

  /** `while '--' in name: name = name.replace('--', '-')`. */
  function CollapseDashes(name: string): (r: string)
    ensures !Contains(r, "--")
    ensures forall c | c in r :: c in name
    decreases |name|
  {
    if Contains(name, "--") then
      ReplaceAllShrinks(name, "--", "-");
      ReplaceAllChars(name, "--", "-");
      var next := ReplaceAll(name, "--", "-");
      assert "--"[0] in name by {
        var i :| 0 <= i <= |name| - 2 && OccursAt(name, "--", i);
        assert name[i..i + 2][0] == name[i];
      }
      CollapseDashes(next)
    else name
  }

  /** `munge_title_to_name(title).replace('_', '-')` with the dashes collapsed. */
  function BaseName(title: string, munge: string -> string): (r: string)
    ensures '_' !in r && !Contains(r, "--")
  {
    ReplaceCharRemoves(munge(title), '_', "-");
    CollapseDashes(ReplaceAll(munge(title), "_", "-"))
  }

  /** The candidate name for suffix `k`: `name + str(k)`. */
  function Candidate(name: string, k: nat): string
  {
    name + IntToStr(k)
  }

  /** The least suffix `k` in `[from, 1000000]` whose candidate is free. */
  function FirstFreeSuffix(name: string, taken: seq<string>, from: nat): (r: Option<nat>)
    requires from >= 1
    ensures r.Some? ==> from <= r.value <= MaxSuffix && Candidate(name, r.value) !in taken
    ensures r.Some? ==> forall j | from <= j < r.value :: Candidate(name, j) in taken
    ensures r.None? <==> forall j | from <= j <= MaxSuffix :: Candidate(name, j) in taken
    decreases MaxSuffix + 1 - from
  {
    if from > MaxSuffix then None
    else if Candidate(name, from) !in taken then Some(from)
    else FirstFreeSuffix(name, taken, from + 1)
  }

  /**
   * `gen_new_name(title)` with the names the database query returns passed
   * in: the base name if it is free, else the base name with the least free
   * suffix, else `None`.
   */
  function NewName(title: string, munge: string -> string, taken: seq<string>): (r: Option<string>)
  {
    var name := BaseName(title, munge);
    if name !in taken then Some(name)
    else
      match FirstFreeSuffix(name, taken, 1)
      case Some(k) => Some(Candidate(name, k))
      case None => None
  }

  /** `'--' in s` exactly when two adjacent characters are both `'-'`. */
  lemma DashPairs(s: string)
    ensures !Contains(s, "--") <==> forall i | 0 <= i < |s| - 1 :: !(s[i] == '-' && s[i + 1] == '-')
  {
    forall i | 0 <= i < |s| - 1 && s[i] == '-' && s[i + 1] == '-'
      ensures OccursAt(s, "--", i)
    {
      assert s[i..i + 2] == "--";
    }
    if Contains(s, "--") {
      var i :| 0 <= i <= |s| - 2 && OccursAt(s, "--", i);
      assert s[i..i + 2][0] == s[i] && s[i..i + 2][1] == s[i + 1];
    }
  }

  /** A suffix of digits adds neither `'_'` nor a `'--'`. */
  lemma CandidateClean(name: string, k: nat)
    requires '_' !in name && !Contains(name, "--")
    ensures '_' !in Candidate(name, k) && !Contains(Candidate(name, k), "--")
  {
    var s, d := Candidate(name, k), IntToStr(k);
    assert forall c | c in s :: c in name || c in d;
    DashPairs(name);
    DashPairs(s);
    forall i | 0 <= i < |s| - 1
      ensures !(s[i] == '-' && s[i + 1] == '-')
    {
      if i + 1 < |name| {
        assert s[i] == name[i] && s[i + 1] == name[i + 1];
      } else {
        assert s[i + 1] == d[i + 1 - |name|] && d[i + 1 - |name|] in d;
      }
    }
  }

  /**
   * What `gen_new_name` promises: the name is free, has no `'_'` and no
   * `'--'`; it is the base name when that is free, and otherwise the base
   * name with the least suffix in 1..1000000 that is free; `None` exactly
   * when the base name and all those candidates are taken.
   */
  lemma NewNameSpec(title: string, munge: string -> string, taken: seq<string>)
    ensures var name, r := BaseName(title, munge), NewName(title, munge, taken);
      && (r.Some? ==> r.value !in taken && '_' !in r.value && !Contains(r.value, "--"))
      && (name !in taken ==> r == Some(name))
      && (r.None? <==> name in taken && forall j | 1 <= j <= MaxSuffix :: Candidate(name, j) in taken)
      && (forall k: nat | name in taken && r == Some(Candidate(name, k)) ::
            1 <= k <= MaxSuffix && forall j | 1 <= j < k :: Candidate(name, j) in taken)
  {
    var name, r := BaseName(title, munge), NewName(title, munge, taken);
    if name in taken {
      var f := FirstFreeSuffix(name, taken, 1);
      if f.Some? {
        CandidateClean(name, f.value);
        forall k: nat | r == Some(Candidate(name, k))
          ensures k == f.value
        {
          CandidateSuffixUnique(name, k, f.value);
        }
      }
    }
  }

  /** The candidates for the suffixes `1..n`. */
  ghost function Candidates(name: string, n: nat): (r: set<string>)
    ensures forall j | 1 <= j <= n :: Candidate(name, j) in r
    ensures forall x | x in r :: exists j | 1 <= j <= n :: x == Candidate(name, j)
  {
    if n == 0 then {} else Candidates(name, n - 1) + {Candidate(name, n)}
  }

  lemma {:induction false} CandidatesSize(name: string, n: nat)
    ensures |Candidates(name, n)| == n
    ensures name !in Candidates(name, n)
  {
    if n > 0 {
      CandidatesSize(name, n - 1);
      if Candidate(name, n) in Candidates(name, n - 1) {
        var j :| 1 <= j <= n - 1 && Candidate(name, n) == Candidate(name, j);
        CandidateSuffixUnique(name, j, n);
      }
    }
  }

  /**
   * The query behind `taken` returns at most 1000000 names, so the suffix
   * search always succeeds and the final `return None` is never reached.
   */
  lemma NewNameFound(title: string, munge: string -> string, taken: seq<string>)
    requires |taken| <= MaxSuffix
    ensures NewName(title, munge, taken).Some?
  {
    NewNameSpec(title, munge, taken);
    if NewName(title, munge, taken).None? {
      AllTakenSize(BaseName(title, munge), taken);
    }
  }

  /** The base name and all its candidates taken means more than 1000000 names were returned. */
  lemma AllTakenSize(name: string, taken: seq<string>)
    requires name in taken && forall j | 1 <= j <= MaxSuffix :: Candidate(name, j) in taken
    ensures |taken| > MaxSuffix
  {
    CandidatesSize(name, MaxSuffix);
    ElementsBound(taken);
    var all := Candidates(name, MaxSuffix) + {name};
    assert all <= set x | x in taken;
    assert (set x | x in taken) == all + ((set x | x in taken) - all);
  }

  /** Different suffixes give different candidates. */
  lemma CandidateSuffixUnique(name: string, j: nat, k: nat)
    requires Candidate(name, j) == Candidate(name, k)
    ensures j == k
  {
    assert IntToStr(j) == Candidate(name, j)[|name|..];
    assert IntToStr(k) == Candidate(name, k)[|name|..];
    IntToStrInjective(j, k);
  }

  lemma {:induction false} IntToStrInjective(j: nat, k: nat)
    requires IntToStr(j) == IntToStr(k)
    ensures j == k
    decreases j
  {
    var s := IntToStr(j);
    if j < 10 && k < 10 {
      DigitInjective(j, k);
    } else if j < 10 || k < 10 {
    } else {
      assert IntToStr(j / 10) == s[..|s| - 1] == IntToStr(k / 10);
      DigitInjective(j % 10, k % 10);
      IntToStrInjective(j / 10, k / 10);
    }
  }

  lemma DigitInjective(a: nat, b: nat)
    requires a < 10 && b < 10 && DigitChar(a) == DigitChar(b)
    ensures a == b
  {
  }

  /** `gen_new_name` with its two loops: the dash collapse and the suffix search. */
  method GenNewName(title: string, munge: string -> string, taken: seq<string>) returns (r: Option<string>)
    ensures r == NewName(title, munge, taken)
  {
    ReplaceCharRemoves(munge(title), '_', "-");
    var name := ReplaceAll(munge(title), "_", "-");
    while Contains(name, "--")
      invariant CollapseDashes(name) == BaseName(title, munge)
      decreases |name|
    {
      ReplaceAllShrinks(name, "--", "-");
      name := ReplaceAll(name, "--", "-");
    }
    if name !in taken {
      return Some(name);
    }
    var counter := 1;
    while counter < MaxSuffix + 1
      invariant 1 <= counter <= MaxSuffix + 1
      invariant FirstFreeSuffix(name, taken, counter) == FirstFreeSuffix(name, taken, 1)
      decreases MaxSuffix + 1 - counter
    {
      if Candidate(name, counter) !in taken {
        return Some(Candidate(name, counter));
      }
      counter := counter + 1;
    }
    return None;
  }

  // ---------------------------------------------------------------------
  // GeminiWafHarvester._extract_urls
  // ---------------------------------------------------------------------

  /** An `href` the index loop keeps, once stripped. */
  predicate KeptHref(href: string)
  {
    var u := Strip(href);
    u != "" && '?' !in u && '/' !in u && '#' !in u && !Contains(u, "mailto:")
  }

  /** The stripped hrefs that survive the four `continue` tests, in document order. */
  function KeptHrefs(hrefs: seq<string>): seq<string>
  {
    FilterMap(KeptHref, Strip, hrefs, |hrefs|)
  }

  /** An href that is only a no-break space arrives as unicode, strips to nothing and is skipped. */
  lemma NoBreakSpaceHrefSkipped()
    ensures KeptHrefs(["\U{A0}"]) == []
  {
    NoBreakSpaceStripped();
  }

  /**
   * `base_url.rstrip('/').split('/')`, the last segment dropped when it
   * contains `'index'`, joined again with `'/'` and a `'/'` appended.
   */
  function BaseDirectory(baseUrl: string): (r: string)
    ensures |r| > 0 && r[|r| - 1] == '/'
  {
    var parts := SplitChar(RStripWhere(baseUrl, c => c == '/'), '/');
    var kept := if Contains(parts[|parts| - 1], "index") then parts[..|parts| - 1] else parts;
    Join("/", kept) + "/"
  }

  /** `[base + i for i in urls]`. */
  function Prefixed(base: string, urls: seq<string>): (r: seq<string>)
    ensures |r| == |urls|
    ensures forall i | 0 <= i < |r| :: r[i] == base + urls[i]
  {
    if |urls| == 0 then [] else Prefixed(base, urls[..|urls| - 1]) + [base + urls[|urls| - 1]]
  }

  /** What `_extract_urls` returns for the hrefs of the page. */
  function ExtractedUrls(hrefs: seq<string>, baseUrl: string): (r: seq<string>)
  {
    Prefixed(BaseDirectory(baseUrl), KeptHrefs(hrefs))
  }

  /** An href is kept exactly when it passes the tests, and then stripped. */
  lemma KeptHrefsMembers(hrefs: seq<string>)
    ensures forall u :: u in KeptHrefs(hrefs) <==> exists h | h in hrefs :: KeptHref(h) && u == Strip(h)
  {
    FilterMapMembers(KeptHref, Strip, hrefs, |hrefs|);
  }

  /**
   * Every extracted URL is the base directory followed by one kept href,
   * and every kept href appears; the base directory ends in `'/'`.
   */
  lemma ExtractedUrlsSpec(hrefs: seq<string>, baseUrl: string)
    ensures forall x :: x in ExtractedUrls(hrefs, baseUrl) <==>
      exists h | h in hrefs :: KeptHref(h) && x == BaseDirectory(baseUrl) + Strip(h)
  {
    KeptHrefsMembers(hrefs);
    var kept, base := KeptHrefs(hrefs), BaseDirectory(baseUrl);
    forall x | x in ExtractedUrls(hrefs, baseUrl)
      ensures exists h | h in hrefs :: KeptHref(h) && x == base + Strip(h)
    {
      var i :| 0 <= i < |kept| && ExtractedUrls(hrefs, baseUrl)[i] == x;
      assert kept[i] in kept;
    }
    forall h | h in hrefs && KeptHref(h)
      ensures base + Strip(h) in ExtractedUrls(hrefs, baseUrl)
    {
      assert Strip(h) in kept;
      var i :| 0 <= i < |kept| && kept[i] == Strip(h);
      assert ExtractedUrls(hrefs, baseUrl)[i] == base + Strip(h);
    }
  }

  /** A base URL whose last segment does not mention `index` is only given a trailing `'/'`. */
  lemma BaseDirectoryPlain(baseUrl: string)
    requires !Contains(SplitChar(RStripWhere(baseUrl, c => c == '/'), '/')[|SplitChar(RStripWhere(baseUrl, c => c == '/'), '/')| - 1], "index")
    ensures BaseDirectory(baseUrl) == RStripWhere(baseUrl, c => c == '/') + "/"
  {
    JoinSplitChar(RStripWhere(baseUrl, c => c == '/'), '/');
  }

  /** An index page's own name is dropped: the directory and the page make up the stripped base URL. */
  lemma BaseDirectoryIndex(baseUrl: string)
    requires var parts := SplitChar(RStripWhere(baseUrl, c => c == '/'), '/');
      |parts| > 1 && Contains(parts[|parts| - 1], "index")
    ensures var parts := SplitChar(RStripWhere(baseUrl, c => c == '/'), '/');
      BaseDirectory(baseUrl) + parts[|parts| - 1] == RStripWhere(baseUrl, c => c == '/')
  {
    var stripped := RStripWhere(baseUrl, c => c == '/');
    var parts := SplitChar(stripped, '/');
    JoinSplitChar(stripped, '/');
    var init := parts[..|parts| - 1];
    assert parts == init + [parts[|parts| - 1]];
    JoinAppend("/", init, parts[|parts| - 1]);
  }

  /** The href loop of `_extract_urls`: each href is stripped and kept unless one of the tests says `continue`. */
  method KeepHrefs(hrefs: seq<string>) returns (kept: seq<string>)
    ensures kept == KeptHrefs(hrefs)
  {
    kept := FilterMapLoop(KeptHref, Strip, hrefs);
  }

  /** The final comprehension: each kept href behind the base directory. */
  method PrefixAll(base: string, urls: seq<string>) returns (r: seq<string>)
    ensures r == Prefixed(base, urls)
  {
    r := [];
    var j := 0;
    while j < |urls|
      invariant 0 <= j <= |urls|
      invariant r == Prefixed(base, urls[..j])
    {
      assert urls[..j + 1][..j] == urls[..j];
      r := r + [base + urls[j]];
      j := j + 1;
    }
    assert urls[..|urls|] == urls;
  }

  /** `_extract_urls(content, base_url)` once the page's hrefs have been read. */
  method ExtractUrls(hrefs: seq<string>, baseUrl: string) returns (urls: seq<string>)
    ensures urls == ExtractedUrls(hrefs, baseUrl)
  {
    var kept := KeepHrefs(hrefs);
    urls := PrefixAll(BaseDirectory(baseUrl), kept);
  }
}
