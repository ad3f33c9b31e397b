/**
 * The search results page: the `q` query parameter decoded into the search
 * text, ten searches (plans and nine collections) and the tabs built from
 * the non-empty answers, plus the encoding of the page's own search box.
 */
module SearchResultsPage {
  import opened Common
  import opened HttpParams
  import PlansService
  import CollectionsService

  /** A result row, reduced to its identity. */
  datatype Row = Row(codigo: int)

  /** The tab label of each of the ten searches, in request order. */
  const Labels: seq<string> := [
    "Planes", "Alojamientos", "Restos arqueológicos", "Recursos culturales", "Eventos",
    "Parques temáticos", "Localidades", "Museos", "Espacios naturales", "Restaurantes"
  ]

  // ------------------------------------------------------- the `q` text

  /** Line 91: `q.split('+').join(' ')`. */
  function Decode(q: string): (text: string)
    ensures text == Replace(q, '+', ' ')
  {
    JoinSplit(q, '+', ' ');
    Join(Split(q, '+'), " ")
  }

  /** The search box's submit: trimmed, and when non-empty its spaces joined with `+`. */
  function Encode(input: string): (q: string)
    ensures Trim(input) == "" ==> q == ""
    ensures Trim(input) != "" ==> q == Replace(Trim(input), ' ', '+')
    ensures |q| == |Trim(input)|
  {
    var t := Trim(input);
    JoinSplit(t, ' ', '+');
    if t != "" then Join(Split(t, ' '), "+") else t
  }

  /** Decoding an encoded input gives the trimmed input back, as long as it has no `+`. */
  lemma RoundTrip(input: string)
    requires forall i :: 0 <= i < |input| ==> input[i] != '+'
    ensures Decode(Encode(input)) == Trim(input)
  {
    var t := Trim(input);
    TrimKeepsOut(input, '+');
    if t != "" {
      ReplaceBack(t, ' ', '+');
    }
  }

  /** Trimming adds no character. */
  lemma TrimKeepsOut(s: string, c: char)
    requires forall i :: 0 <= i < |s| ==> s[i] != c
    ensures forall i :: 0 <= i < |Trim(s)| ==> Trim(s)[i] != c
  {
    var k, r := |s| - |TrimStart(s)|, Trim(s);
    forall i | 0 <= i < |r| ensures r[i] != c {
      assert r[i] == s[k + i];
    }
  }

  /** The query record holds the search text as title, step directions and search term, next to the language. */
  function SearchQuery(text: string, language: string): (query: Query)
    ensures query.Keys == {"idioma", "titulo", "indicaciones_pasos", "busqueda"}
    ensures query["idioma"] == language
    ensures query["titulo"] == text && query["indicaciones_pasos"] == text && query["busqueda"] == text
  {
    map["idioma" := language, "titulo" := text, "indicaciones_pasos" := text, "busqueda" := text]
  }

  /**
   * Of that record, the plans search and every collection search send
   * only the language and the search term, each when it is non-empty; the
   * title and step directions never leave the page.
   */
  lemma SearchSendsTextAndLanguage(text: string, language: string)
    ensures Forwarded(SearchQuery(text, language), PlansService.SearchRules) ==
      (if language != "" then [("idioma", language)] else []) + (if text != "" then [("busqueda", text)] else [])
    ensures Forwarded(SearchQuery(text, language), Same(CollectionsService.SearchKeys)) ==
      (if language != "" then [("idioma", language)] else []) + (if text != "" then [("busqueda", text)] else [])
  {
    var q := SearchQuery(text, language);
    var rules := PlansService.SearchRules;
    assert Same(CollectionsService.SearchKeys) == rules;
    assert rules[..1][..0] == [] && rules[..1] == [Rule("idioma", "idioma")];
    assert rules[..|rules| - 1] == rules[..1];
    assert Forwarded(q, rules[..1]) == (if language != "" then [("idioma", language)] else []);
  }

  // ---------------------------------------------------------------- tabs

  /** `if (r.length > 0) results[label] = r` for each answer in turn. */
  function Merged(results: Entries<seq<Row>>, labels: seq<string>, answers: seq<seq<Row>>): (r: Entries<seq<Row>>)
    requires |labels| == |answers|
    ensures UniqueKeys(results) ==> UniqueKeys(r)
    decreases |labels|
  {
    if labels == [] then results
    else
      var n := |labels| - 1;
      var prev := Merged(results, labels[..n], answers[..n]);
      if |answers[n]| > 0 then Put(prev, labels[n], answers[n]) else prev
  }

  /** The labels of the non-empty answers. */
  function FilledLabels(labels: seq<string>, answers: seq<seq<Row>>): set<string>
    requires |labels| == |answers|
  {
    set i | 0 <= i < |labels| && |answers[i]| > 0 :: labels[i]
  }

  /** One more answer adds its label exactly when it is non-empty. */
  lemma FilledLabelsSnoc(labels: seq<string>, answers: seq<seq<Row>>)
    requires |labels| == |answers| && labels != []
    ensures var n := |labels| - 1;
      FilledLabels(labels, answers) ==
        FilledLabels(labels[..n], answers[..n]) + (if |answers[n]| > 0 then {labels[n]} else {})
  {
    var n := |labels| - 1;
    var before := FilledLabels(labels[..n], answers[..n]);
    var after := FilledLabels(labels, answers);
    forall x | x in after ensures x in before + (if |answers[n]| > 0 then {labels[n]} else {}) {
      var i :| 0 <= i < |labels| && |answers[i]| > 0 && labels[i] == x;
      if i < n { assert labels[..n][i] == x && |answers[..n][i]| > 0; }
    }
    forall x | x in before ensures x in after {
      var i :| 0 <= i < n && |answers[..n][i]| > 0 && labels[..n][i] == x;
      assert labels[i] == x && |answers[i]| > 0;
    }
  }

  /** After merging, the keys are the old ones plus the labels of the non-empty answers. */
  lemma {:induction false} MergedKeys(results: Entries<seq<Row>>, labels: seq<string>, answers: seq<seq<Row>>)
    requires |labels| == |answers|
    ensures EntryKeys(Merged(results, labels, answers)) == EntryKeys(results) + FilledLabels(labels, answers)
    decreases |labels|
  {
    if labels != [] {
      var n := |labels| - 1;
      MergedKeys(results, labels[..n], answers[..n]);
      FilledLabelsSnoc(labels, answers);
    }
  }

  /** A non-empty answer is what its label shows, when the labels are distinct. */
  lemma {:induction false} MergedValue(results: Entries<seq<Row>>, labels: seq<string>, answers: seq<seq<Row>>, i: nat)
    requires |labels| == |answers| && i < |labels| && |answers[i]| > 0
    requires forall j :: 0 <= j < |labels| && j != i ==> labels[j] != labels[i]
    ensures Get(Merged(results, labels, answers), labels[i]) == Some(answers[i])
    decreases |labels|
  {
    var n := |labels| - 1;
    if i < n {
      MergedValue(results, labels[..n], answers[..n], i);
    }
  }

  /** An empty answer leaves its label as it was: earlier results under it stay. */
  lemma {:induction false} MergedKeepsOld(results: Entries<seq<Row>>, labels: seq<string>, answers: seq<seq<Row>>, k: string)
    requires |labels| == |answers|
    requires forall j :: 0 <= j < |labels| && labels[j] == k ==> |answers[j]| == 0
    ensures Get(Merged(results, labels, answers), k) == Get(results, k)
    decreases |labels|
  {
    if labels != [] {
      var n := |labels| - 1;
      MergedKeepsOld(results, labels[..n], answers[..n], k);
    }
  }

  /** The ten labels are distinct: equal lengths come with different first letters. */
  lemma LabelsDistinct(i: nat, j: nat)
    requires i < |Labels| && j < |Labels| && i != j
    ensures Labels[i] != Labels[j]
  {
    var sig := [(6, 'P'), (12, 'A'), (20, 'R'), (19, 'R'), (7, 'E'), (17, 'P'), (11, 'L'), (6, 'M'), (18, 'E'), (12, 'R')];
    LabelSig(i);
    LabelSig(j);
    assert sig[i] != sig[j];
  }

  lemma LabelSig(i: nat)
    requires i < |Labels|
    ensures (|Labels[i]|, Labels[i][0]) ==
      [(6, 'P'), (12, 'A'), (20, 'R'), (19, 'R'), (7, 'E'), (17, 'P'), (11, 'L'), (6, 'M'), (18, 'E'), (12, 'R')][i]
  {
    if i == 0 { assert Labels[0] == "Planes"; }
    else if i == 1 { assert Labels[1] == "Alojamientos"; }
    else if i == 2 { assert Labels[2] == "Restos arqueológicos"; }
    else if i == 3 { assert Labels[3] == "Recursos culturales"; }
    else if i == 4 { assert Labels[4] == "Eventos"; }
    else if i == 5 { assert Labels[5] == "Parques temáticos"; }
    else if i == 6 { assert Labels[6] == "Localidades"; }
    else if i == 7 { assert Labels[7] == "Museos"; }
    else if i == 8 { assert Labels[8] == "Espacios naturales"; }
    else { assert Labels[9] == "Restaurantes"; }
  }

  // ------------------------------------------------------------- sorting

  /** Non-decreasing under the `<` of JavaScript strings. */
  predicate Ascending(s: seq<string>) {
    forall i, j :: 0 <= i < j < |s| ==> !StrLess(s[j], s[i])
  }

  function InsertLabel(x: string, s: seq<string>): (r: seq<string>)
    ensures |r| == |s| + 1
    ensures multiset(r) == multiset(s) + multiset{x}
    decreases |s|
  {
    if s == [] then [x]
    else if StrLess(x, s[0]) then [x] + s
    else
      assert s == [s[0]] + s[1..];
      [s[0]] + InsertLabel(x, s[1..])
  }

  /** An ascending list stays ascending behind a head no entry is below. */
  lemma ConsAscending(h: string, rest: seq<string>)
    requires Ascending(rest) && forall j :: 0 <= j < |rest| ==> !StrLess(rest[j], h)
    ensures Ascending([h] + rest)
  {
    var r := [h] + rest;
    forall i, j | 0 <= i < j < |r| ensures !StrLess(r[j], r[i]) {
      assert r[j] == rest[j - 1];
      if i > 0 { assert r[i] == rest[i - 1]; }
    }
  }

  lemma TailAscending(s: seq<string>)
    requires Ascending(s) && s != []
    ensures Ascending(s[1..])
  {
    forall i, j | 0 <= i < j < |s| - 1 ensures !StrLess(s[1..][j], s[1..][i]) {
      assert s[1..][j] == s[j + 1] && s[1..][i] == s[i + 1];
    }
  }

  lemma {:induction false} InsertLabelAscending(x: string, s: seq<string>)
    requires Ascending(s)
    ensures Ascending(InsertLabel(x, s))
    decreases |s|
  {
    if s != [] {
      if StrLess(x, s[0]) {
        forall j | 0 <= j < |s| ensures !StrLess(s[j], x) {
          if StrLess(s[j], x) {
            StrLessTransitive(s[j], x, s[0]);
            if j == 0 { StrLessIrreflexive(s[0]); }
          }
        }
        ConsAscending(x, s);
      } else {
        TailAscending(s);
        InsertLabelAscending(x, s[1..]);
        var rest := InsertLabel(x, s[1..]);
        forall j | 0 <= j < |rest| ensures !StrLess(rest[j], s[0]) {
          assert rest[j] in multiset(rest);
          if rest[j] != x {
            assert rest[j] in multiset(s[1..]);
            var k :| 0 <= k < |s[1..]| && s[1..][k] == rest[j];
            assert s[k + 1] == rest[j];
          }
        }
        ConsAscending(s[0], rest);
      }
    }
  }

  /** `Array.prototype.sort` with `(a, b) => a < b ? -1 : 1`, as an insertion sort. */
  function SortLabels(s: seq<string>): (r: seq<string>)
    ensures |r| == |s|
    decreases |s|
  {
    if s == [] then [] else InsertLabel(s[0], SortLabels(s[1..]))
  }

  /** The sorted tabs are the same labels, in ascending order. */
  lemma {:induction false} SortLabelsSorted(s: seq<string>)
    ensures multiset(SortLabels(s)) == multiset(s)
    ensures Ascending(SortLabels(s))
    decreases |s|
  {
    if s != [] {
      SortLabelsSorted(s[1..]);
      InsertLabelAscending(s[0], SortLabels(s[1..]));
      assert s == [s[0]] + s[1..];
    }
  }

  // ----------------------------------------------------------- the page

  class Page {
    var searchInput: Option<string>
    var isLoading: bool
    var results: Entries<seq<Row>>
    var menuItems: seq<string>
    var activeItem: Option<string>
    var activeCollection: Option<seq<Row>>

    predicate Valid()
      reads this
    {
      UniqueKeys(results)
    }

    constructor ()
      ensures Valid() && results == [] && menuItems == [] && activeItem == None && activeCollection == None
      ensures searchInput == None && isLoading
    {
      searchInput := None;
      isLoading := true;
      results := [];
      menuItems := [];
      activeItem := None;
      activeCollection := None;
    }

    /**
     * A new `q` arrives. A missing or empty one starts nothing; otherwise
     * loading starts and the decoded text is searched, always in Spanish.
     */
    method QueryParamsChanged(q: Option<string>) returns (query: Option<Query>)
      modifies this`searchInput, this`isLoading
      ensures !Truthy(q) ==> query == None && searchInput == q && isLoading == old(isLoading)
      ensures Truthy(q) ==> (query == Some(SearchQuery(Decode(q.value), "es"))
        && searchInput == Some(Decode(q.value)) && isLoading)
    {
      searchInput := q;
      if !Truthy(q) {
        return None;
      }
      isLoading := true;
      var text := Decode(q.value);
      searchInput := Some(text);
      return Some(SearchQuery(text, "es"));
    }

    /**
     * The ten answers arrive together (or the joined request fails).
     * Each non-empty answer fills its label; earlier labels stay. When any
     * label exists the tabs are the sorted labels and the first is active.
     */
    method ResultsArrived(response: Outcome<seq<seq<Row>>>)
      requires Valid()
      requires response.Ok? ==> |response.body| == |Labels|
      modifies this`results, this`menuItems, this`activeItem, this`activeCollection, this`isLoading
      ensures Valid() && !isLoading
      ensures response.Failed? ==> (results == old(results) && menuItems == old(menuItems)
        && activeItem == old(activeItem) && activeCollection == old(activeCollection))
      ensures response.Ok? ==> results == Merged(old(results), Labels, response.body)
      ensures response.Ok? && results != [] ==>
        (menuItems == SortLabels(KeyOrder(results)) && activeItem == Some(menuItems[0])
        && activeCollection == Get(results, menuItems[0]))
      ensures response.Ok? && results == [] ==>
        (menuItems == old(menuItems) && activeItem == old(activeItem) && activeCollection == old(activeCollection))
    {
      if response.Ok? {
        MergeAnswers(response.body);
        if |results| > 0 {
          ShowFirstTab();
        }
      }
      isLoading := false;
    }

    /** The tabs are the sorted labels of the lists; the first one is active. */
    method ShowFirstTab()
      requires results != []
      modifies this`menuItems, this`activeItem, this`activeCollection
      ensures menuItems == SortLabels(KeyOrder(results)) && activeItem == Some(menuItems[0])
      ensures activeCollection == Get(results, menuItems[0])
    {
      menuItems := SortLabels(KeyOrder(results));
      var first := menuItems[0];
      activeItem := Some(first);
      activeCollection := Get(results, first);
    }

    /** Each non-empty answer, in request order, is stored under its label. */
    method MergeAnswers(answers: seq<seq<Row>>)
      requires Valid() && |answers| == |Labels|
      modifies this`results
      ensures Valid() && results == Merged(old(results), Labels, answers)
    {
      var i := 0;
      while i < |Labels|
        invariant 0 <= i <= |Labels|
        invariant results == Merged(old(results), Labels[..i], answers[..i])
        invariant UniqueKeys(results)
      {
        assert Labels[..i + 1][..i] == Labels[..i] && answers[..i + 1][..i] == answers[..i];
        if |answers[i]| > 0 {
          results := Put(results, Labels[i], answers[i]);
        }
        i := i + 1;
      }
      assert Labels[..i] == Labels && answers[..i] == answers;
    }

    /**
     * `_onTabClick(t)`: a label among the tabs becomes active and shows its
     * list; any other name fails with a TypeError after clearing the active
     * item.
     */
    method TabClick(t: string) returns (ok: bool)
      modifies this`activeItem, this`activeCollection
      ensures ok <==> t in menuItems
      ensures ok ==> activeItem == Some(t) && activeCollection == Get(results, t)
      ensures !ok ==> activeItem == None && activeCollection == old(activeCollection)
    {
      var index := 0;
      while index < |menuItems| && menuItems[index] != t
        invariant 0 <= index <= |menuItems|
        invariant forall j :: 0 <= j < index ==> menuItems[j] != t
      {
        index := index + 1;
      }
      if index == |menuItems| {
        activeItem := None;
        return false;
      }
      activeItem := Some(menuItems[index]);
      activeCollection := Get(results, t);
      return true;
    }
  }

  /** The active tab is the least label under the string order. */
  lemma FirstTabIsLeast(results: Entries<seq<Row>>, k: string)
    requires results != [] && k in EntryKeys(results)
    ensures !StrLess(k, SortLabels(KeyOrder(results))[0])
  {
    var sorted := SortLabels(KeyOrder(results));
    SortLabelsSorted(KeyOrder(results));
    KeyOrderHas(results, k);
    assert k in multiset(sorted);
    var j :| 0 <= j < |sorted| && sorted[j] == k;
    if j > 0 {
      assert !StrLess(sorted[j], sorted[0]);
    } else {
      StrLessIrreflexive(k);
    }
  }

  lemma {:induction false} KeyOrderHas(results: Entries<seq<Row>>, k: string)
    requires k in EntryKeys(results)
    ensures k in KeyOrder(results)
    decreases |results|
  {
    if results[0].0 != k {
      KeyOrderHas(results[1..], k);
      assert KeyOrder(results) == [results[0].0] + KeyOrder(results[1..]);
    }
  }

  /**
   * A label filled by an earlier query whose new answer is empty keeps its
   * earlier results: nothing ever clears the record.
   */
  lemma StaleLabelPersists(results: Entries<seq<Row>>, answers: seq<seq<Row>>, i: nat)
    requires |answers| == |Labels| && i < |Labels| && |answers[i]| == 0
    requires Labels[i] in EntryKeys(results)
    ensures Get(Merged(results, Labels, answers), Labels[i]) == Get(results, Labels[i]) != None
  {
    forall j | 0 <= j < |Labels| && Labels[j] == Labels[i] ensures |answers[j]| == 0 {
      if j != i { LabelsDistinct(i, j); }
    }
    MergedKeepsOld(results, Labels, answers, Labels[i]);
  }

  /** Each non-empty answer is shown under its own label. */
  lemma AnswerUnderLabel(results: Entries<seq<Row>>, answers: seq<seq<Row>>, i: nat)
    requires |answers| == |Labels| && i < |Labels| && |answers[i]| > 0
    ensures Get(Merged(results, Labels, answers), Labels[i]) == Some(answers[i])
  {
    forall j | 0 <= j < |Labels| && j != i ensures Labels[j] != Labels[i] {
      LabelsDistinct(i, j);
    }
    MergedValue(results, Labels, answers, i);
  }
}
