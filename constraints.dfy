/**
 * What the three `translate_license_data` variants share
 * (ckanext/spatial/lib/license_map.py, ckanext/spatial/lib/licenses.py and
 * lib.linux-i686-2.7/ckanext/spatial/lib/license_map.py): the four
 * constraint lists of the harvested document, the `terms_of_use` record,
 * `extract_license_url`, the scan of the use-limitations that removes
 * every limitation containing a table word from the caller's list while
 * iterating over it, and the assembly of the `other` text.
 */
module LegalConstraints {
  import opened PyText

  /** The Python exceptions the translations can raise. */
  datatype Failure = ValueError | KeyError(key: string) | TypeError

  datatype Result<T> = Ok(value: T) | Err(failure: Failure)

  /**
   * `terms_of_use`: `license_id`, `license_url` and `other`, with `None`
   * standing for Python's `None` in each slot.
   */
  datatype TermsOfUse = TermsOfUse(licenseId: Option<string>, licenseUrl: Option<string>, other: Option<string>)

  /**
   * The four lists of the harvested values the translations read
   * (`gemini['use-limitations']` and so on). The scan of the
   * use-limitations removes entries from the caller's list in place.
   */
  class Gemini {
    var useLimitations: seq<string>
    var useConstraints: seq<string>
    var accessConstraints: seq<string>
    var otherConstraints: seq<string>

    constructor (limitations: seq<string>, uses: seq<string>, access: seq<string>, others: seq<string>)
      ensures useLimitations == limitations && useConstraints == uses
      ensures accessConstraints == access && otherConstraints == others
    {
      useLimitations := limitations;
      useConstraints := uses;
      accessConstraints := access;
      otherConstraints := others;
    }

    /**
     * `for constraint in gemini['use-limitations']: for word in keys: if word
     * in constraint: license_id = table[word]; ...remove(constraint)`: the
     * list iterator walks by position over the list it is shrinking.
     */
    method RemoveMatchedLimitations(words: seq<string>, table: map<string, Option<string>>, id: Option<string>)
      returns (r: Result<ScanState>)
      requires forall k | 0 <= k < |words| :: words[k] in table
      modifies this
      ensures r == LimitationScan(ScanState(old(useLimitations), id, None), 0, words, table)
      ensures r.Ok? ==> useLimitations == r.value.items
      ensures useConstraints == old(useConstraints) && accessConstraints == old(accessConstraints)
      ensures otherConstraints == old(otherConstraints)
    {
      ghost var goal := LimitationScan(ScanState(useLimitations, id, None), 0, words, table);
      var licenseId, matched := id, None;
      var index := 0;
      while index < |useLimitations|
        invariant LimitationScan(ScanState(useLimitations, licenseId, matched), index, words, table) == goal
        invariant useConstraints == old(useConstraints) && accessConstraints == old(accessConstraints)
        invariant otherConstraints == old(otherConstraints)
        decreases |useLimitations| - index
      {
        var state := ScanState(useLimitations, licenseId, matched);
        var pass := ScanWords(state, useLimitations[index], words, table);
        if pass.Err? {
          return Err(pass.failure);
        }
        useLimitations, licenseId, matched := pass.value.items, pass.value.licenseId, pass.value.matched;
        index := index + 1;
      }
      r := Ok(ScanState(useLimitations, licenseId, matched));
    }
  }

  // ---------------------------------------------------------------------
  // The use-limitation scan
  // ---------------------------------------------------------------------

  /**
   * The scan's state: what is left of the caller's list, the current
   * `license_id`, and the limitation that matched last (if any).
   */
  datatype ScanState = ScanState(items: seq<string>, licenseId: Option<string>, matched: Option<string>)

  /**
   * The inner `for word in constraint_translation.keys()` loop for one
   * limitation `c`: every word contained in `c` sets the id and removes
   * `c` again, and a removal that finds no copy left is the `ValueError`.
   */
  function WordPass(s: ScanState, c: string, words: seq<string>, table: map<string, Option<string>>): (r: Result<ScanState>)
    requires forall k | 0 <= k < |words| :: words[k] in table
    ensures r.Ok? ==> |r.value.items| <= |s.items|
    ensures r.Err? ==> r.failure == ValueError
    decreases |words|
  {
    if |words| == 0 then Ok(s)
    else
      match WordPass(s, c, words[..|words| - 1], table)
      case Err(f) => Err(f)
      case Ok(t) =>
        var w := words[|words| - 1];
        if !Contains(c, w) then Ok(t)
        else
          match ListRemove(t.items, c)
          case None => Err(ValueError)
          case Some(rest) => Ok(ScanState(rest, table[w], Some(c)))
  }

  /**
   * The outer loop from position `index` on: the limitation at the current
   * position is scanned, and the iterator moves one position on in the list
   * that scan may have shortened.
   */
  function LimitationScan(s: ScanState, index: nat, words: seq<string>, table: map<string, Option<string>>): (r: Result<ScanState>)
    requires forall k | 0 <= k < |words| :: words[k] in table
    ensures r.Ok? ==> |r.value.items| <= |s.items|
    ensures r.Err? ==> r.failure == ValueError
    decreases |s.items| - index
  {
    if |s.items| <= index then Ok(s)
    else
      match WordPass(s, s.items[index], words, table)
      case Err(f) => Err(f)
      case Ok(t) =>
        if |t.items| <= index + 1 then Ok(t) else LimitationScan(t, index + 1, words, table)
  }

  /** The inner word loop as it runs. */
  method ScanWords(s: ScanState, c: string, words: seq<string>, table: map<string, Option<string>>)
    returns (r: Result<ScanState>)
    requires forall k | 0 <= k < |words| :: words[k] in table
    ensures r == WordPass(s, c, words, table)
  {
    var items, licenseId, matched := s.items, s.licenseId, s.matched;
    var k := 0;
    while k < |words|
      invariant 0 <= k <= |words|
      invariant WordPass(s, c, words[..k], table) == Ok(ScanState(items, licenseId, matched))
    {
      assert words[..k + 1][..k] == words[..k];
      var word := words[k];
      if Contains(c, word) {
        licenseId := table[word];
        var removed := ListRemove(items, c);
        if removed.None? {
          WordPassStops(s, c, words, table, k + 1);
          return Err(ValueError);
        }
        items, matched := removed.value, Some(c);
      }
      k := k + 1;
    }
    assert words[..|words|] == words;
    r := Ok(ScanState(items, licenseId, matched));
  }

  /** Once a removal raises, the remaining words change nothing. */
  lemma {:induction false} WordPassStops(s: ScanState, c: string, words: seq<string>, table: map<string, Option<string>>, k: nat)
    requires forall j | 0 <= j < |words| :: words[j] in table
    requires k <= |words| && WordPass(s, c, words[..k], table).Err?
    ensures WordPass(s, c, words, table) == WordPass(s, c, words[..k], table)
    decreases |words| - k
  {
    if k == |words| {
      assert words[..k] == words;
    } else {
      assert words[..k + 1][..k] == words[..k];
      WordPassStops(s, c, words, table, k + 1);
    }
  }

  /** A limitation that contains no word leaves the state as it was. */
  lemma {:induction false} NoWordPass(s: ScanState, c: string, words: seq<string>, table: map<string, Option<string>>)
    requires forall k | 0 <= k < |words| :: words[k] in table
    requires forall k | 0 <= k < |words| :: !Contains(c, words[k])
    ensures WordPass(s, c, words, table) == Ok(s)
    decreases |words|
  {
    if |words| > 0 {
      NoWordPass(s, c, words[..|words| - 1], table);
    }
  }

  /** A limitation that contains exactly the word `words[m]`, up to the first `n` words. */
  lemma {:induction false} OneWordPrefix(s: ScanState, c: string, words: seq<string>, table: map<string, Option<string>>, m: nat, n: nat)
    requires forall k | 0 <= k < |words| :: words[k] in table
    requires m < |words| && Contains(c, words[m]) && c in s.items
    requires forall k | 0 <= k < |words| && k != m :: !Contains(c, words[k])
    requires n <= |words|
    ensures WordPass(s, c, words[..n], table)
      == if n <= m then Ok(s) else Ok(ScanState(ListRemove(s.items, c).value, table[words[m]], Some(c)))
    decreases n
  {
    if n > 0 {
      assert words[..n][..n - 1] == words[..n - 1];
      OneWordPrefix(s, c, words, table, m, n - 1);
    }
  }

  /**
   * A limitation that contains exactly one word sets the id to that word's
   * entry and is removed once.
   */
  lemma OneWordPass(s: ScanState, c: string, words: seq<string>, table: map<string, Option<string>>, m: nat)
    requires forall k | 0 <= k < |words| :: words[k] in table
    requires m < |words| && Contains(c, words[m]) && c in s.items
    requires forall k | 0 <= k < |words| && k != m :: !Contains(c, words[k])
    ensures WordPass(s, c, words, table) == Ok(ScanState(ListRemove(s.items, c).value, table[words[m]], Some(c)))
  {
    OneWordPrefix(s, c, words, table, m, |words|);
    assert words[..|words|] == words;
  }

  /** The word loop removes copies of `c` and nothing else. */
  lemma {:induction false} WordPassRemovesOnly(s: ScanState, c: string, words: seq<string>, table: map<string, Option<string>>)
    requires forall k | 0 <= k < |words| :: words[k] in table
    ensures WordPass(s, c, words, table).Ok? ==>
      var t := WordPass(s, c, words, table).value;
      multiset(t.items) <= multiset(s.items)
      && forall x | x != c :: multiset(t.items)[x] == multiset(s.items)[x]
    decreases |words|
  {
    if |words| > 0 {
      WordPassRemovesOnly(s, c, words[..|words| - 1], table);
      var prior := WordPass(s, c, words[..|words| - 1], table);
      if prior.Ok? && Contains(c, words[|words| - 1]) && c in prior.value.items {
        ListRemoveMultiset(prior.value.items, c);
      }
    }
  }

  /**
   * After a word contained in `c` has removed it, `c` is gone from a list
   * that held it at most once, or the pass has already raised.
   */
  lemma {:induction false} GoneAfterMatch(s: ScanState, c: string, words: seq<string>, table: map<string, Option<string>>, m: nat, n: nat)
    requires forall k | 0 <= k < |words| :: words[k] in table
    requires m < n <= |words| && Contains(c, words[m]) && multiset(s.items)[c] <= 1
    ensures WordPass(s, c, words[..n], table).Err? || c !in WordPass(s, c, words[..n], table).value.items
    decreases n
  {
    assert words[..n][..n - 1] == words[..n - 1];
    var prior := WordPass(s, c, words[..n - 1], table);
    if n - 1 == m {
      WordPassRemovesOnly(s, c, words[..n - 1], table);
      if prior.Ok? && c in prior.value.items {
        ListRemoveMultiset(prior.value.items, c);
        assert multiset(ListRemove(prior.value.items, c).value)[c] == 0;
      }
    } else {
      GoneAfterMatch(s, c, words, table, m, n - 1);
    }
  }

  /**
   * A limitation held once that contains two of the words raises
   * `ValueError`: the second `remove` finds no copy left.
   */
  lemma TwoWordsRaise(s: ScanState, c: string, words: seq<string>, table: map<string, Option<string>>, m1: nat, m2: nat)
    requires forall k | 0 <= k < |words| :: words[k] in table
    requires m1 < m2 < |words| && Contains(c, words[m1]) && Contains(c, words[m2])
    requires multiset(s.items)[c] <= 1
    ensures WordPass(s, c, words, table) == Err(ValueError)
  {
    GoneAfterMatch(s, c, words, table, m1, m2);
    assert words[..m2 + 1][..m2] == words[..m2];
    WordPassStops(s, c, words, table, m2 + 1);
  }

  /** Limitations that contain no word are never examined to any effect: the scan changes nothing. */
  lemma {:induction false} ScanNoMatch(s: ScanState, index: nat, words: seq<string>, table: map<string, Option<string>>)
    requires forall k | 0 <= k < |words| :: words[k] in table
    requires forall i, k | index <= i < |s.items| && 0 <= k < |words| :: !Contains(s.items[i], words[k])
    ensures LimitationScan(s, index, words, table) == Ok(s)
    decreases |s.items| - index
  {
    if index < |s.items| {
      NoWordPass(s, s.items[index], words, table);
      ScanNoMatch(s, index + 1, words, table);
    }
  }

  /**
   * The scan removes only limitations that contain a word: every copy of a
   * limitation `x` without one stays, and nothing is added.
   */
  lemma {:induction false} ScanKeepsUnmatched(s: ScanState, index: nat, words: seq<string>, table: map<string, Option<string>>, x: string)
    requires forall k | 0 <= k < |words| :: words[k] in table
    requires forall k | 0 <= k < |words| :: !Contains(x, words[k])
    ensures LimitationScan(s, index, words, table).Ok? ==>
      var t := LimitationScan(s, index, words, table).value;
      multiset(t.items)[x] == multiset(s.items)[x] && multiset(t.items) <= multiset(s.items)
    decreases |s.items| - index
  {
    if index < |s.items| {
      var c := s.items[index];
      var pass := WordPass(s, c, words, table);
      if c == x {
        NoWordPass(s, c, words, table);
      } else {
        WordPassRemovesOnly(s, c, words, table);
      }
      if pass.Ok? && index + 1 < |pass.value.items| {
        ScanKeepsUnmatched(pass.value, index + 1, words, table, x);
      }
    }
  }

  /**
   * What a scan state says about where it came from: with no match yet the
   * list and the id are the original ones; after a match, the id is the
   * entry of a word contained in the last matched limitation, which was one
   * of the original limitations.
   */
  ghost predicate Explains(st: ScanState, items0: seq<string>, id0: Option<string>, table: map<string, Option<string>>)
  {
    (st.matched.None? ==> st.items == items0 && st.licenseId == id0)
    && (st.matched.Some? ==>
          st.matched.value in items0
          && exists w | w in table :: Contains(st.matched.value, w) && st.licenseId == table[w])
  }

  lemma {:induction false} WordPassExplains(s: ScanState, c: string, words: seq<string>, table: map<string, Option<string>>,
                                            items0: seq<string>, id0: Option<string>)
    requires forall k | 0 <= k < |words| :: words[k] in table
    requires Explains(s, items0, id0, table) && multiset(s.items) <= multiset(items0)
    ensures WordPass(s, c, words, table).Ok? ==>
      var t := WordPass(s, c, words, table).value;
      Explains(t, items0, id0, table) && multiset(t.items) <= multiset(items0)
    decreases |words|
  {
    if |words| > 0 {
      var init := words[..|words| - 1];
      WordPassExplains(s, c, init, table, items0, id0);
      WordPassRemovesOnly(s, c, init, table);
      var prior := WordPass(s, c, init, table);
      var w := words[|words| - 1];
      if prior.Ok? && Contains(c, w) && c in prior.value.items {
        ListRemoveMultiset(prior.value.items, c);
        assert c in multiset(items0);
        assert Contains(c, words[|words| - 1]);
      }
    }
  }

  lemma {:induction false} ScanExplains(s: ScanState, index: nat, words: seq<string>, table: map<string, Option<string>>,
                                        items0: seq<string>, id0: Option<string>)
    requires forall k | 0 <= k < |words| :: words[k] in table
    requires Explains(s, items0, id0, table) && multiset(s.items) <= multiset(items0)
    ensures LimitationScan(s, index, words, table).Ok? ==>
      var t := LimitationScan(s, index, words, table).value;
      Explains(t, items0, id0, table) && multiset(t.items) <= multiset(items0)
    decreases |s.items| - index
  {
    if index < |s.items| {
      var pass := WordPass(s, s.items[index], words, table);
      WordPassExplains(s, s.items[index], words, table, items0, id0);
      if pass.Ok? && index + 1 < |pass.value.items| {
        ScanExplains(pass.value, index + 1, words, table, items0, id0);
      }
    }
  }

  /**
   * Where the scan of a whole list ends: every limitation it removed
   * contained a word, no limitation was added, and the id is the default
   * exactly when nothing matched (and then nothing was removed).
   */
  lemma WholeScan(items0: seq<string>, id0: Option<string>, words: seq<string>, table: map<string, Option<string>>)
    requires forall k | 0 <= k < |words| :: words[k] in table
    ensures LimitationScan(ScanState(items0, id0, None), 0, words, table).Ok? ==>
      var t := LimitationScan(ScanState(items0, id0, None), 0, words, table).value;
      Explains(t, items0, id0, table) && multiset(t.items) <= multiset(items0)
  {
    ScanExplains(ScanState(items0, id0, None), 0, words, table, items0, id0);
  }

  /** One limitation containing exactly one word: the id is set and the caller's list is left empty. */
  lemma SingleLimitation(c: string, id0: Option<string>, words: seq<string>, table: map<string, Option<string>>, m: nat)
    requires forall k | 0 <= k < |words| :: words[k] in table
    requires m < |words| && Contains(c, words[m])
    requires forall k | 0 <= k < |words| && k != m :: !Contains(c, words[k])
    ensures LimitationScan(ScanState([c], id0, None), 0, words, table) == Ok(ScanState([], table[words[m]], Some(c)))
  {
    OneWordPass(ScanState([c], id0, None), c, words, table, m);
  }

  /**
   * Removing a limitation while iterating skips the one after it: of two
   * limitations the second is never examined, whatever it contains.
   */
  lemma SkipsNext(c1: string, c2: string, id0: Option<string>, words: seq<string>, table: map<string, Option<string>>, m: nat)
    requires forall k | 0 <= k < |words| :: words[k] in table
    requires m < |words| && Contains(c1, words[m]) && c1 != c2
    requires forall k | 0 <= k < |words| && k != m :: !Contains(c1, words[k])
    ensures LimitationScan(ScanState([c1, c2], id0, None), 0, words, table) == Ok(ScanState([c2], table[words[m]], Some(c1)))
  {
    OneWordPass(ScanState([c1, c2], id0, None), c1, words, table, m);
    assert [c1, c2][..0] + [c1, c2][1..] == [c2];
  }

  /** A limitation held once that contains two words makes the scan raise `ValueError` when it is reached. */
  lemma ScanRaises(s: ScanState, index: nat, words: seq<string>, table: map<string, Option<string>>, m1: nat, m2: nat)
    requires forall k | 0 <= k < |words| :: words[k] in table
    requires index < |s.items| && multiset(s.items)[s.items[index]] <= 1
    requires m1 < m2 < |words| && Contains(s.items[index], words[m1]) && Contains(s.items[index], words[m2])
    ensures LimitationScan(s, index, words, table) == Err(ValueError)
  {
    TwoWordsRaise(s, s.items[index], words, table, m1, m2);
  }

  /** A key order: the keys of `table`, each once, in whatever order `keys()` yields them. */
  predicate IsKeyOrder(order: seq<string>, table: map<string, Option<string>>)
  {
    NoDuplicates(order) && (forall k | 0 <= k < |order| :: order[k] in table) && (forall w | w in table :: w in order)
  }

  /** Every key of the table, wherever `order` puts it, and only there. */
  lemma KeyPosition(order: seq<string>, table: map<string, Option<string>>, w: string) returns (m: nat)
    requires IsKeyOrder(order, table) && w in table
    ensures m < |order| && order[m] == w
    ensures forall k | 0 <= k < |order| && k != m :: order[k] != w
  {
    m := IndexOf(order, w);
  }

  // ---------------------------------------------------------------------
  // extract_license_url
  // ---------------------------------------------------------------------

  /**
   * `extract_license_url`: the first constraint that `isUrl` accepts
   * (`urlparse(c)` has both a scheme and a network location).
   */
  function FirstUrl(constraints: seq<string>, isUrl: string -> bool): (r: Option<string>)
    ensures r.Some? <==> exists i | 0 <= i < |constraints| :: isUrl(constraints[i])
    ensures r.Some? ==> exists i | 0 <= i < |constraints| ::
      constraints[i] == r.value && isUrl(r.value) && forall j | 0 <= j < i :: !isUrl(constraints[j])
    decreases |constraints|
  {
    if |constraints| == 0 then None
    else if isUrl(constraints[0]) then Some(constraints[0])
    else
      var r := FirstUrl(constraints[1..], isUrl);
      assert forall i | 1 <= i < |constraints| :: constraints[i] == constraints[1..][i - 1];
      r
  }

  method ExtractLicenseUrl(constraints: seq<string>, isUrl: string -> bool) returns (r: Option<string>)
    ensures r == FirstUrl(constraints, isUrl)
  {
    var i := 0;
    while i < |constraints|
      invariant 0 <= i <= |constraints|
      invariant FirstUrl(constraints[i..], isUrl) == FirstUrl(constraints, isUrl)
    {
      assert constraints[i..][1..] == constraints[i + 1..];
      if isUrl(constraints[i]) {
        return Some(constraints[i]);
      }
      i := i + 1;
    }
    return None;
  }

  /** Python truthiness of what `extract_license_url` returns. */
  predicate Truthy(found: Option<string>)
  {
    found.Some? && found.value != ""
  }

  /**
   * `for constraint in others: if extract_license_url(others): license_url =
   * constraint`: the last other-constraint when any of them is URL-shaped.
   */
  function UrlAfter(url: Option<string>, others: seq<string>, isUrl: string -> bool): (r: Option<string>)
    ensures !isUrl("") ==>
      (r == if exists i | 0 <= i < |others| :: isUrl(others[i]) then Some(others[|others| - 1]) else url)
  {
    if |others| > 0 && Truthy(FirstUrl(others, isUrl)) then Some(others[|others| - 1]) else url
  }

  method ScanUrls(url: Option<string>, others: seq<string>, isUrl: string -> bool) returns (r: Option<string>)
    ensures r == UrlAfter(url, others, isUrl)
  {
    r := url;
    var i := 0;
    while i < |others|
      invariant 0 <= i <= |others|
      invariant r == if i > 0 && Truthy(FirstUrl(others, isUrl)) then Some(others[i - 1]) else url
    {
      var found := ExtractLicenseUrl(others, isUrl);
      if found.Some? && found.value != "" {
        r := Some(others[i]);
      }
      i := i + 1;
    }
  }

  // ---------------------------------------------------------------------
  // The `other` text
  // ---------------------------------------------------------------------

  /**
   * The words one variant writes into `other`: the two section headings,
   * `code_translation`, the keys of `constraint_translation`, and whether an
   * access-constraint `'otherRestrictions'` outside that table is omitted.
   */
  datatype Wording = Wording(limitsHeading: string, furtherHeading: string, codes: map<string, string>,
                             licenseKeys: set<string>, omitOtherRestrictions: bool)

  /** Each item followed by one space (`other += item + ' '`). */
  function Spaced(items: seq<string>): (r: string)
    ensures |items| > 0 ==> |r| > 0 && r[|r| - 1] == ' '
    decreases |items|
  {
    if |items| == 0 then "" else Spaced(items[..|items| - 1]) + items[|items| - 1] + " "
  }

  /** The German names of the use-constraint codes; a missing code is the `KeyError`. */
  function CodeNames(codes: map<string, string>, uses: seq<string>): (r: Result<string>)
    ensures r.Err? <==> exists i | 0 <= i < |uses| :: uses[i] !in codes
    ensures r.Err? ==> r.failure.KeyError? && r.failure.key in uses && r.failure.key !in codes
    ensures r.Ok? && |uses| > 0 ==> |r.value| > 0
    decreases |uses|
  {
    if |uses| == 0 then Ok("")
    else
      var init := uses[..|uses| - 1];
      assert forall i | 0 <= i < |init| :: init[i] == uses[i];
      match CodeNames(codes, init)
      case Err(f) => Err(f)
      case Ok(text) =>
        var c := uses[|uses| - 1];
        if c in codes then Ok(text + codes[c] + " ") else Err(KeyError(c))
  }

  /**
   * The access-constraints: a key of `constraint_translation` is looked up in
   * `code_translation` (the `KeyError` when it is missing there), any other
   * constraint is appended without a separator.
   */
  function AccessNames(w: Wording, access: seq<string>): (r: Result<string>)
    ensures r.Err? <==> exists i | 0 <= i < |access| :: access[i] in w.licenseKeys && access[i] !in w.codes
    ensures r.Err? ==> r.failure.KeyError? && r.failure.key in access && r.failure.key in w.licenseKeys
    decreases |access|
  {
    if |access| == 0 then Ok("")
    else
      var init := access[..|access| - 1];
      assert forall i | 0 <= i < |init| :: init[i] == access[i];
      match AccessNames(w, init)
      case Err(f) => Err(f)
      case Ok(text) =>
        var c := access[|access| - 1];
        if c in w.licenseKeys then
          if c in w.codes then Ok(text + w.codes[c] + " ") else Err(KeyError(c))
        else if w.omitOtherRestrictions && c == "otherRestrictions" then Ok(text)
        else Ok(text + c)
  }

  /** The heading and the limitations, present when there are limitations or use-constraints. */
  function LimitsPart(w: Wording, limitations: seq<string>, uses: seq<string>): string
  {
    if |limitations| > 0 || |uses| > 0 then w.limitsHeading + Spaced(limitations) else ""
  }

  /** What follows the limitations: the code names, the access section and the other-constraints. */
  function TailPart(w: Wording, codeText: string, access: seq<string>, accessText: string, others: seq<string>): string
  {
    codeText + (if |access| > 0 then w.furtherHeading + accessText else "") + Spaced(others)
  }

  /** Python's `other[:-1]` behind `if len(other) > 0`. */
  function DropLast(s: string): (r: string)
    ensures |s| > 0 ==> r + [s[|s| - 1]] == s
    ensures |s| == 0 ==> r == s
  {
    if |s| > 0 then s[..|s| - 1] else s
  }

  /**
   * `other`: the limitations, the use-constraint names, the access section
   * and the other-constraints, with the final character dropped; it fails
   * exactly when a use-constraint code or an access-constraint key is
   * missing from `code_translation`.
   */
  function OtherOf(w: Wording, limitations: seq<string>, uses: seq<string>, access: seq<string>, others: seq<string>)
    : (r: Result<string>)
    ensures r.Err? <==>
      (exists i | 0 <= i < |uses| :: uses[i] !in w.codes)
      || (exists i | 0 <= i < |access| :: access[i] in w.licenseKeys && access[i] !in w.codes)
    ensures r.Err? ==> r.failure.KeyError?
  {
    match CodeNames(w.codes, uses)
    case Err(f) => Err(f)
    case Ok(codeText) =>
      match AccessNames(w, access)
      case Err(f) => Err(f)
      case Ok(accessText) => Ok(DropLast(LimitsPart(w, limitations, uses) + TailPart(w, codeText, access, accessText, others)))
  }

  /** With no constraints at all, `other` is empty. */
  lemma OtherEmpty(w: Wording)
    ensures OtherOf(w, [], [], [], []) == Ok("")
  {
  }

  /** Dropping the last character of `h + rest` drops it from `rest` when `rest` is not empty. */
  lemma DropLastAppend(h: string, rest: string)
    requires |rest| > 0
    ensures DropLast(h + rest) == h + DropLast(rest)
  {
    assert (h + rest)[..|h + rest| - 1] == h + rest[..|rest| - 1];
  }

  /** Dropping the last character of `h + rest` keeps `h` when `rest` is not empty. */
  lemma DropLastKeepsPrefix(h: string, rest: string)
    requires |rest| > 0
    ensures |h| <= |DropLast(h + rest)| && DropLast(h + rest)[..|h|] == h
  {
    assert DropLast(h + rest) == h + rest[..|rest| - 1];
  }

  /**
   * With limitations or use-constraints, `other` starts with the heading:
   * something always follows it, so dropping the final character keeps it.
   */
  lemma OtherStartsWithHeading(w: Wording, limitations: seq<string>, uses: seq<string>, access: seq<string>, others: seq<string>)
    requires |limitations| > 0 || |uses| > 0
    ensures OtherOf(w, limitations, uses, access, others).Ok? ==>
      var r := OtherOf(w, limitations, uses, access, others).value;
      |w.limitsHeading| <= |r| && r[..|w.limitsHeading|] == w.limitsHeading
  {
    var codes := CodeNames(w.codes, uses);
    var acc := AccessNames(w, access);
    if codes.Ok? && acc.Ok? {
      var tail := TailPart(w, codes.value, access, acc.value, others);
      var rest := Spaced(limitations) + tail;
      assert |Spaced(limitations)| > 0 || |codes.value| > 0;
      assert LimitsPart(w, limitations, uses) + tail == w.limitsHeading + rest;
      DropLastKeepsPrefix(w.limitsHeading, rest);
    }
  }

  /** With other-constraints, `other` ends with the last of them: the dropped character is its trailing space. */
  lemma OtherEndsWithLastConstraint(w: Wording, limitations: seq<string>, uses: seq<string>, access: seq<string>,
                                    others: seq<string>)
    requires |others| > 0
    ensures OtherOf(w, limitations, uses, access, others).Ok? ==>
      EndsWith(OtherOf(w, limitations, uses, access, others).value, others[|others| - 1])
  {
    var codes := CodeNames(w.codes, uses);
    var acc := AccessNames(w, access);
    if codes.Ok? && acc.Ok? {
      OtherOfOk(w, limitations, uses, access, others, codes.value, acc.value);
      var last := others[|others| - 1];
      var accessPart := if |access| > 0 then w.furtherHeading + acc.value else "";
      var front := LimitsPart(w, limitations, uses) + codes.value + accessPart + Spaced(others[..|others| - 1]);
      var init := Spaced(others[..|others| - 1]);
      assert Spaced(others) == init + last + " ";
      assert TailPart(w, codes.value, access, acc.value, others) == codes.value + accessPart + Spaced(others);
      RegroupLast(LimitsPart(w, limitations, uses), codes.value, accessPart, init, last);
      DropLastSpace(front + last);
      EndsWithAppended(front, last);
    }
  }

  /** The final space of the other-constraints closes the whole concatenation. */
  lemma RegroupLast(limits: string, codes: string, accessPart: string, init: string, last: string)
    ensures limits + (codes + accessPart + (init + last + " ")) == (limits + codes + accessPart + init + last) + " "
  {
  }

  /** Dropping the last character removes a trailing space. */
  lemma DropLastSpace(s: string)
    ensures DropLast(s + " ") == s
  {
    assert (s + " ")[..|s|] == s;
  }

  /** `for item in items: other += item + ' '`. */
  method AppendSpaced(other: string, items: seq<string>) returns (r: string)
    ensures r == other + Spaced(items)
  {
    r := other;
    var i := 0;
    while i < |items|
      invariant 0 <= i <= |items|
      invariant r == other + Spaced(items[..i])
    {
      assert items[..i + 1][..i] == items[..i];
      r := r + items[i] + " ";
      i := i + 1;
    }
    assert items[..|items|] == items;
  }

  /** `for constraint in uses: other += code_translation[constraint] + ' '`. */
  method AppendCodeNames(other: string, codes: map<string, string>, uses: seq<string>) returns (r: Result<string>)
    ensures r.Ok? <==> CodeNames(codes, uses).Ok?
    ensures r.Ok? ==> r.value == other + CodeNames(codes, uses).value
    ensures r.Err? ==> r == CodeNames(codes, uses)
  {
    var text := other;
    var j := 0;
    while j < |uses|
      invariant 0 <= j <= |uses|
      invariant CodeNames(codes, uses[..j]).Ok? && text == other + CodeNames(codes, uses[..j]).value
    {
      assert uses[..j + 1][..j] == uses[..j];
      if uses[j] !in codes {
        CodeNamesStop(codes, uses, j + 1);
        return Err(KeyError(uses[j]));
      }
      text := text + codes[uses[j]] + " ";
      j := j + 1;
    }
    assert uses[..|uses|] == uses;
    r := Ok(text);
  }

  /** The loop over the access-constraints. */
  method AppendAccessNames(other: string, w: Wording, access: seq<string>) returns (r: Result<string>)
    ensures r.Ok? <==> AccessNames(w, access).Ok?
    ensures r.Ok? ==> r.value == other + AccessNames(w, access).value
    ensures r.Err? ==> r == AccessNames(w, access)
  {
    var text := other;
    var k := 0;
    while k < |access|
      invariant 0 <= k <= |access|
      invariant AccessNames(w, access[..k]).Ok? && text == other + AccessNames(w, access[..k]).value
    {
      assert access[..k + 1][..k] == access[..k];
      var c := access[k];
      if c in w.licenseKeys {
        if c !in w.codes {
          AccessNamesStop(w, access, k + 1);
          return Err(KeyError(c));
        }
        text := text + w.codes[c] + " ";
      } else if !(w.omitOtherRestrictions && c == "otherRestrictions") {
        text := text + c;
      }
      k := k + 1;
    }
    assert access[..|access|] == access;
    r := Ok(text);
  }

  /** The `other` text as the loops build it, one constraint at a time. */
  method AssembleOther(w: Wording, limitations: seq<string>, uses: seq<string>, access: seq<string>, others: seq<string>)
    returns (r: Result<string>)
    ensures r == OtherOf(w, limitations, uses, access, others)
  {
    var other := "";
    if |limitations| > 0 || |uses| > 0 {
      other := AppendSpaced(other + w.limitsHeading, limitations);
    }
    ghost var limits := other;
    assert limits == LimitsPart(w, limitations, uses);
    var withCodes := AppendCodeNames(other, w.codes, uses);
    if withCodes.Err? {
      return withCodes;
    }
    ghost var codeText := CodeNames(w.codes, uses).value;
    other := withCodes.value;
    ghost var accessText := "";
    ghost var accessPart := "";
    if |access| > 0 {
      var withAccess := AppendAccessNames(other + w.furtherHeading, w, access);
      if withAccess.Err? {
        OtherOfAccessErr(w, limitations, uses, access, others);
        return withAccess;
      }
      accessText := AccessNames(w, access).value;
      accessPart := w.furtherHeading + accessText;
      other := withAccess.value;
    } else {
      assert AccessNames(w, access) == Ok("");
    }
    assert other == limits + codeText + accessPart;
    other := AppendSpaced(other, others);
    OtherOfOk(w, limitations, uses, access, others, codeText, accessText);
    Concat4(limits, codeText, accessPart, Spaced(others));
    if |other| > 0 {
      other := other[..|other| - 1];
    }
    r := Ok(other);
  }

  /** Grouping of the four parts of `other`. */
  lemma Concat4(a: string, b: string, c: string, d: string)
    ensures a + b + c + d == a + (b + c + d)
  {
  }

  /** `other` when both translations succeed. */
  lemma OtherOfOk(w: Wording, limitations: seq<string>, uses: seq<string>, access: seq<string>, others: seq<string>,
                  codeText: string, accessText: string)
    requires CodeNames(w.codes, uses) == Ok(codeText) && AccessNames(w, access) == Ok(accessText)
    ensures OtherOf(w, limitations, uses, access, others)
      == Ok(DropLast(LimitsPart(w, limitations, uses) + TailPart(w, codeText, access, accessText, others)))
  {
  }

  /** `other` when the codes translate but an access-constraint does not. */
  lemma OtherOfAccessErr(w: Wording, limitations: seq<string>, uses: seq<string>, access: seq<string>, others: seq<string>)
    requires CodeNames(w.codes, uses).Ok? && AccessNames(w, access).Err?
    ensures OtherOf(w, limitations, uses, access, others) == AccessNames(w, access)
  {
  }

  lemma {:induction false} CodeNamesStop(codes: map<string, string>, uses: seq<string>, k: nat)
    requires k <= |uses| && CodeNames(codes, uses[..k]).Err?
    ensures CodeNames(codes, uses) == CodeNames(codes, uses[..k])
    decreases |uses| - k
  {
    if k == |uses| {
      assert uses[..k] == uses;
    } else {
      assert uses[..k + 1][..k] == uses[..k];
      CodeNamesStop(codes, uses, k + 1);
    }
  }

  lemma {:induction false} AccessNamesStop(w: Wording, access: seq<string>, k: nat)
    requires k <= |access| && AccessNames(w, access[..k]).Err?
    ensures AccessNames(w, access) == AccessNames(w, access[..k])
    decreases |access| - k
  {
    if k == |access| {
      assert access[..k] == access;
    } else {
      assert access[..k + 1][..k] == access[..k];
      AccessNamesStop(w, access, k + 1);
    }
  }
}
