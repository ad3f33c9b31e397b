/**
 * The filter store: the selected province, locality, dates and one
 * category per collection, where the natural collection holds two
 * mutually exclusive subtype slots, and the count of active filters.
 */
module FilterStore {
  import opened Common

  /** A locality as the locality-names endpoint returns it. */
  datatype Locality = Locality(nombre: string, nombreProvincia: string)

  /** The selectable categories of the natural collection, one list per subtype slot. */
  datatype NaturalCatalogue = NaturalCatalogue(espacioNatural: seq<string>, playasPantanosRios: seq<string>)

  /** The selectable categories of every collection, as fetched from the API. */
  datatype Categories = Categories(accommodation: seq<string>, cave: seq<string>, cultural: seq<string>,
                                   event: seq<string>, museum: seq<string>, natural: NaturalCatalogue,
                                   restaurant: seq<string>)

  /** The collections with one category slot each (every key of `selectedCategories` but `natural`). */
  const InitialKeys: seq<string> := seq(6, InitialKey)

  /** The `i`-th key of the initial `selectedCategories`, in declaration order. */
  function InitialKey(i: int): string {
    if i == 0 then "accommodation"
    else if i == 1 then "cave"
    else if i == 2 then "cultural"
    else if i == 3 then "event"
    else if i == 4 then "museum"
    else "restaurant"
  }

  /** The length of the `i`-th initial key; no two are equal and none is 7, the length of `natural`. */
  function KeyLength(i: int): nat {
    if i == 0 then 13 else if i == 1 then 4 else if i == 2 then 8
    else if i == 3 then 5 else if i == 4 then 6 else 10
  }

  lemma InitialKeyLength(i: int)
    ensures |InitialKey(i)| == KeyLength(i)
  {
  }

  /** The initial keys are distinct and none is `natural` (their lengths already differ). */
  lemma InitialKeysShape()
    ensures UniqueKeys(Cleared(InitialKeys)) && "natural" !in EntryKeys(Cleared(InitialKeys))
  {
    var c := Cleared(InitialKeys);
    forall i, j | 0 <= i < j < |c| ensures c[i].0 != c[j].0 {
      assert c[i].0 == InitialKeys[i] == InitialKey(i) && c[j].0 == InitialKeys[j] == InitialKey(j);
      InitialKeyLength(i);
      InitialKeyLength(j);
    }
    forall i | 0 <= i < |c| ensures c[i].0 != "natural" {
      assert c[i].0 == InitialKeys[i] == InitialKey(i);
      InitialKeyLength(i);
      assert |"natural"| == 7;
    }
    DistinctUnique(c);
    AbsentKey(c, "natural");
  }

  /** Every key holds `null`. */
  function Cleared(keys: seq<string>): (slots: seq<(string, Option<string>)>)
    ensures |slots| == |keys|
    ensures forall i :: 0 <= i < |keys| ==> slots[i] == (keys[i], None)
  {
    if keys == [] then [] else [(keys[0], None)] + Cleared(keys[1..])
  }

  /** The number of slots holding a truthy category. */
  function CountSet(slots: seq<(string, Option<string>)>): (n: nat)
    ensures n <= |slots|
    decreases |slots|
  {
    if slots == [] then 0
    else CountSet(slots[..|slots| - 1]) + (if Truthy(slots[|slots| - 1].1) then 1 else 0)
  }

  /** No slot is set, so none is counted. */
  lemma {:induction false} CountCleared(keys: seq<string>)
    ensures CountSet(Cleared(keys)) == 0
    decreases |keys|
  {
    if keys != [] {
      var c := Cleared(keys);
      CountCleared(keys[..|keys| - 1]);
      assert c[..|c| - 1] == Cleared(keys[..|keys| - 1]);
    }
  }

  function B(b: bool): nat { if b then 1 else 0 }

  /**
   * What `filterCount` computes: one for each of province, locality, start
   * and end date that is set, one for each set collection slot, and one
   * when either natural slot is set.
   */
  function FilterCountOf(province: Option<string>, locality: Option<string>, startDate: Option<string>,
                         endDate: Option<string>, slots: seq<(string, Option<string>)>,
                         espacio: Option<string>, playas: Option<string>): nat
  {
    B(Truthy(province)) + B(Truthy(locality)) + B(Truthy(startDate)) + B(Truthy(endDate))
      + CountSet(slots) + B(Truthy(espacio) || Truthy(playas))
  }

  /** With the six initial collection keys, at most eleven filters are counted. */
  lemma CountBound(province: Option<string>, locality: Option<string>, startDate: Option<string>,
                   endDate: Option<string>, slots: seq<(string, Option<string>)>,
                   espacio: Option<string>, playas: Option<string>)
    ensures FilterCountOf(province, locality, startDate, endDate, slots, espacio, playas) <= 5 + |slots|
    ensures |slots| == |InitialKeys| ==> FilterCountOf(province, locality, startDate, endDate, slots, espacio, playas) <= 11
  {
  }

  class Store {
    var localities: seq<Locality>
    var filteredLocalities: seq<Locality>
    var selectedProvince: Option<string>
    var selectedLocality: Option<string>
    var startDate: Option<string>
    var endDate: Option<string>
    var categories: Categories
    /** `selectedCategories` except `natural`, in key order. */
    var slots: seq<(string, Option<string>)>
    var selectedEspacio: Option<string>
    var selectedPlayas: Option<string>

    /** The keys of `slots` are distinct and never `natural`. */
    predicate Valid()
      reads this
    {
      UniqueKeys(slots) && "natural" !in EntryKeys(slots)
    }

    function Count(): nat
      reads this
    {
      FilterCountOf(selectedProvince, selectedLocality, startDate, endDate, slots, selectedEspacio, selectedPlayas)
    }

    /** The initial state (nothing persisted from an earlier session). */
    constructor ()
      ensures Valid() && Count() == 0
      ensures localities == [] && filteredLocalities == [] && slots == Cleared(InitialKeys)
    {
      localities := [];
      filteredLocalities := [];
      selectedProvince, selectedLocality, startDate, endDate := None, None, None, None;
      categories := Categories([], [], [], [], [], NaturalCatalogue([], []), []);
      slots := Cleared(InitialKeys);
      selectedEspacio, selectedPlayas := None, None;
      ClearedInitial(Cleared(InitialKeys));
    }

    /** The `filterCount` getter: counts with `count++` over the fields and `for ... in` over the slots. */
    method FilterCount() returns (count: nat)
      ensures count == Count()
    {
      count := 0;
      if Truthy(selectedProvince) { count := count + 1; }
      if Truthy(selectedLocality) { count := count + 1; }
      if Truthy(startDate) { count := count + 1; }
      if Truthy(endDate) { count := count + 1; }
      var base := count;
      var i := 0;
      while i < |slots|
        invariant 0 <= i <= |slots|
        invariant count == base + CountSet(slots[..i])
      {
        assert slots[..i + 1][..i] == slots[..i];
        if Truthy(slots[i].1) { count := count + 1; }
        i := i + 1;
      }
      assert slots[..|slots|] == slots;
      if Truthy(selectedEspacio) || Truthy(selectedPlayas) { count := count + 1; }
    }

    /** `fetchLocalities` with the response given: both lists take the data; an error changes nothing. */
    method FetchLocalities(response: Outcome<seq<Locality>>)
      modifies this
      ensures response.Ok? ==> localities == response.body && filteredLocalities == response.body
      ensures response.Failed? ==> localities == old(localities) && filteredLocalities == old(filteredLocalities)
      ensures selectedProvince == old(selectedProvince) && selectedLocality == old(selectedLocality)
      ensures slots == old(slots) && selectedEspacio == old(selectedEspacio) && selectedPlayas == old(selectedPlayas)
      ensures startDate == old(startDate) && endDate == old(endDate) && categories == old(categories)
    {
      if response.Ok? {
        localities := response.body;
        filteredLocalities := response.body;
      }
    }

    /**
     * `fetchCategories` with the seven responses given, in request order.
     * The requests run one after another inside one `try`: each list takes
     * its response when it and every earlier request succeeded, and keeps
     * its old value otherwise.
     */
    method FetchCategories(acc: Outcome<seq<string>>, cave: Outcome<seq<string>>, cultural: Outcome<seq<string>>,
                           event: Outcome<seq<string>>, museum: Outcome<seq<string>>,
                           natural: Outcome<NaturalCatalogue>, restaurant: Outcome<seq<string>>)
      modifies this`categories
      ensures var ok1 := acc.Ok?;
              var ok2 := ok1 && cave.Ok?;
              var ok3 := ok2 && cultural.Ok?;
              var ok4 := ok3 && event.Ok?;
              var ok5 := ok4 && museum.Ok?;
              var ok6 := ok5 && natural.Ok?;
              var ok7 := ok6 && restaurant.Ok?;
        categories == Categories(
          if ok1 then acc.body else old(categories.accommodation),
          if ok2 then cave.body else old(categories.cave),
          if ok3 then cultural.body else old(categories.cultural),
          if ok4 then event.body else old(categories.event),
          if ok5 then museum.body else old(categories.museum),
          if ok6 then natural.body else old(categories.natural),
          if ok7 then restaurant.body else old(categories.restaurant))
    {
      if acc.Failed? { return; }
      categories := categories.(accommodation := acc.body);
      if cave.Failed? { return; }
      categories := categories.(cave := cave.body);
      if cultural.Failed? { return; }
      categories := categories.(cultural := cultural.body);
      if event.Failed? { return; }
      categories := categories.(event := event.body);
      if museum.Failed? { return; }
      categories := categories.(museum := museum.body);
      if natural.Failed? { return; }
      categories := categories.(natural := natural.body);
      if restaurant.Failed? { return; }
      categories := categories.(restaurant := restaurant.body);
    }

    /**
     * `filterLocalitiesByProvince(province)`: a truthy province keeps the
     * localities of that province and clears the locality; a falsy one
     * restores the full list and keeps the locality.
     */
    method FilterLocalitiesByProvince(province: Option<string>)
      modifies this
      ensures selectedProvince == province
      ensures Truthy(province) ==> filteredLocalities == OfProvince(localities, province.value) && selectedLocality == None
      ensures !Truthy(province) ==> filteredLocalities == localities && selectedLocality == old(selectedLocality)
      ensures localities == old(localities) && slots == old(slots)
      ensures selectedEspacio == old(selectedEspacio) && selectedPlayas == old(selectedPlayas)
      ensures startDate == old(startDate) && endDate == old(endDate) && categories == old(categories)
    {
      selectedProvince := province;
      if Truthy(province) {
        filteredLocalities := OfProvince(localities, province.value);
        selectedLocality := None;
      } else {
        filteredLocalities := localities;
      }
    }

    method SetSelectedLocality(locality: Option<string>)
      modifies this`selectedLocality
      ensures selectedLocality == locality
    {
      selectedLocality := locality;
    }

    method SetStartDate(date: Option<string>)
      modifies this`startDate
      ensures startDate == date
    {
      startDate := date;
    }

    method SetEndDate(date: Option<string>)
      modifies this`endDate
      ensures endDate == date
    {
      endDate := date;
    }

    /**
     * `setSelectedCategory(collection, category)`. For `natural`, a value of
     * the first list fills that slot and empties the other, a value of the
     * second list does the reverse, and any other value changes nothing;
     * any other collection sets its own slot only.
     */
    method SetSelectedCategory(collection: string, category: Option<string>)
      requires Valid()
      modifies this`slots, this`selectedEspacio, this`selectedPlayas
      ensures Valid()
      ensures (selectedEspacio, selectedPlayas, slots) ==
        NaturalChoice(collection, category, categories.natural, old(selectedEspacio), old(selectedPlayas), old(slots))
    {
      if collection == "natural" {
        if category.Some? && category.value in categories.natural.espacioNatural {
          selectedEspacio := category;
          selectedPlayas := None;
        } else if category.Some? && category.value in categories.natural.playasPantanosRios {
          selectedPlayas := category;
          selectedEspacio := None;
        }
      } else {
        slots := Put(slots, collection, category);
      }
    }

    /** `clearFilters`: every selection back to null, so nothing is counted. */
    method ClearFilters()
      modifies this`selectedProvince, this`selectedLocality, this`startDate, this`endDate, this`slots,
        this`selectedEspacio, this`selectedPlayas
      ensures Valid() && Count() == 0
      ensures selectedProvince == None && selectedLocality == None && startDate == None && endDate == None
      ensures slots == Cleared(InitialKeys) && selectedEspacio == None && selectedPlayas == None
    {
      selectedProvince, selectedLocality, startDate, endDate := None, None, None, None;
      slots := Cleared(InitialKeys);
      selectedEspacio, selectedPlayas := None, None;
      ClearedInitial(slots);
    }
  }

  /** The cleared initial slots are a valid slot list with nothing counted. */
  lemma ClearedInitial(slots: seq<(string, Option<string>)>)
    requires slots == Cleared(InitialKeys)
    ensures UniqueKeys(slots) && "natural" !in EntryKeys(slots) && CountSet(slots) == 0
  {
    CountCleared(InitialKeys);
    InitialKeysShape();
  }

  /** The localities of one province, in their original order. */
  function OfProvince(localities: seq<Locality>, province: string): (r: seq<Locality>)
    ensures |r| <= |localities|
    ensures forall l :: l in r <==> l in localities && l.nombreProvincia == province
    decreases |localities|
  {
    if localities == [] then []
    else (if localities[0].nombreProvincia == province then [localities[0]] else []) + OfProvince(localities[1..], province)
  }

  /** Filtering a list with a first entry: that entry if it belongs, then the filtered rest. */
  lemma OfProvinceCons(x: Locality, rest: seq<Locality>, province: string)
    ensures OfProvince([x] + rest, province) ==
      (if x.nombreProvincia == province then [x] else []) + OfProvince(rest, province)
  {
    assert ([x] + rest)[0] == x && ([x] + rest)[1..] == rest;
  }

  /** Filtering distributes over concatenation, so it keeps the original order. */
  lemma {:induction false} OfProvinceAppend(a: seq<Locality>, b: seq<Locality>, province: string)
    ensures OfProvince(a + b, province) == OfProvince(a, province) + OfProvince(b, province)
    decreases |a|
  {
    if a == [] {
      assert a + b == b;
    } else {
      var h := if a[0].nombreProvincia == province then [a[0]] else [];
      assert a == [a[0]] + a[1..] && a + b == [a[0]] + (a[1..] + b);
      OfProvinceCons(a[0], a[1..] + b, province);
      OfProvinceCons(a[0], a[1..], province);
      OfProvinceAppend(a[1..], b, province);
      assert h + (OfProvince(a[1..], province) + OfProvince(b, province))
        == (h + OfProvince(a[1..], province)) + OfProvince(b, province);
    }
  }

  /** The effect of `setSelectedCategory` on the natural slots and the other slots. */
  function NaturalChoice(collection: string, category: Option<string>, catalogue: NaturalCatalogue,
                         espacio: Option<string>, playas: Option<string>,
                         slots: seq<(string, Option<string>)>): (r: (Option<string>, Option<string>, seq<(string, Option<string>)>))
    ensures collection == "natural" ==> r.2 == slots
    ensures collection != "natural" ==> r.0 == espacio && r.1 == playas
    ensures r.0.Some? && r.0 != espacio ==> r.0 == category && category.value in catalogue.espacioNatural
    ensures r.1.Some? && r.1 != playas ==> r.1 == category && category.value in catalogue.playasPantanosRios
  {
    if collection == "natural" then
      if category.Some? && category.value in catalogue.espacioNatural then (category, None, slots)
      else if category.Some? && category.value in catalogue.playasPantanosRios then (None, category, slots)
      else (espacio, playas, slots)
    else (espacio, playas, Put(slots, collection, category))
  }

  /**
   * After any choice the two natural slots are never both set, provided
   * they were not both set before; a natural choice never touches the other
   * slots, and another collection's choice never touches the natural slots.
   */
  lemma NaturalExclusive(collection: string, category: Option<string>, catalogue: NaturalCatalogue,
                         espacio: Option<string>, playas: Option<string>, slots: seq<(string, Option<string>)>)
    requires espacio.None? || playas.None?
    ensures var (e, p, s) := NaturalChoice(collection, category, catalogue, espacio, playas, slots);
      (e.None? || p.None?)
      && (collection == "natural" ==> s == slots)
      && (collection != "natural" ==> e == espacio && p == playas)
  {
  }
}
