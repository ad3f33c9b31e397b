/**
 * The filter side panel of a resource list: the five selections, the
 * category and locality lists it offers, the count badge, clearing, and
 * the object it emits on submit.
 */
module FormFilter {
  import opened Common

  /** A category choice: its name and the query key it filters on. */
  datatype Category = Category(name: string, subtype: string)

  /** The category rows of the API response, seen through the fields the panel reads. */
  datatype CategoryRows = CategoryRows(plain: seq<string>, espacioNatural: seq<string>, playasPantanosRios: seq<string>)

  /** What `_onFormFilterSubmit` emits; a date is already in its `eu-ES` rendering. */
  datatype FormData = FormData(category: Option<string>, locality: Option<string>, province: Option<string>,
                               startDate: Option<string>, endDate: Option<string>)

  /** The raw values of the five form controls (a date as the control holds it). */
  datatype FormValues = FormValues(category: Option<string>, locality: Option<string>, province: Option<string>,
                                   startDate: Option<string>, endDate: Option<string>)

  const EmptyForm := FormValues(None, None, None, None, None)

  const SubtypeKey := "nombre_subtipo_recurso"
  const EspacioKey := "nombre_subtipo_recurso_espacio_natural"
  const PlayasKey := "nombre_subtipo_recurso_playas_pantanos_rios"

  /** The collections for which `setCategoryObservable` picks a categories request. */
  const CategorizedCollections: set<string> :=
    {"accommodations", "caves", "culturals", "events", "naturals", "museums", "restaurants"}

  /** Every name tagged with the same subtype key, in order. */
  function Tagged(names: seq<string>, subtype: string): (r: seq<Category>)
    ensures |r| == |names|
    ensures forall i :: 0 <= i < |names| ==> r[i] == Category(names[i], subtype)
  {
    if names == [] then [] else [Category(names[0], subtype)] + Tagged(names[1..], subtype)
  }

  /**
   * The categories offered for a collection: for naturals the first-subtype
   * rows and then the second-subtype rows, each tagged with its own key;
   * for any other collection the plain rows under `nombre_subtipo_recurso`.
   */
  function CategoryItems(collection: string, rows: CategoryRows): (r: seq<Category>)
    ensures collection == "naturals" ==>
      |r| == |rows.espacioNatural| + |rows.playasPantanosRios|
      && (forall i :: 0 <= i < |rows.espacioNatural| ==> r[i] == Category(rows.espacioNatural[i], EspacioKey))
      && (forall i :: 0 <= i < |rows.playasPantanosRios| ==>
            r[|rows.espacioNatural| + i] == Category(rows.playasPantanosRios[i], PlayasKey))
    ensures collection != "naturals" ==>
      |r| == |rows.plain| && forall i :: 0 <= i < |r| ==> r[i] == Category(rows.plain[i], SubtypeKey)
  {
    if collection == "naturals" then Tagged(rows.espacioNatural, EspacioKey) + Tagged(rows.playasPantanosRios, PlayasKey)
    else Tagged(rows.plain, SubtypeKey)
  }

  function B(b: bool): nat { if b then 1 else 0 }

  /** The number of selections that are set. */
  function SelectionCount(province: Option<string>, locality: Option<string>, category: Option<string>,
                          startDate: Option<string>, endDate: Option<string>): (n: nat)
    ensures n <= 5
  {
    B(province.Some?) + B(locality.Some?) + B(category.Some?) + B(startDate.Some?) + B(endDate.Some?)
  }

  /** The submitted object: the raw values with absent ones as null, dates rendered by `localeDate`. */
  function Submitted(form: FormValues, localeDate: string -> string): (d: FormData)
    ensures d.category == form.category && d.locality == form.locality && d.province == form.province
    ensures d.startDate.Some? <==> form.startDate.Some?
    ensures d.endDate.Some? <==> form.endDate.Some?
  {
    FormData(form.category, form.locality, form.province,
             if form.startDate.Some? then Some(localeDate(form.startDate.value)) else None,
             if form.endDate.Some? then Some(localeDate(form.endDate.value)) else None)
  }

  /** A reset form submits all-null data, whatever the date rendering. */
  lemma EmptyFormSubmitsNulls(localeDate: string -> string)
    ensures Submitted(EmptyForm, localeDate) == FormData(None, None, None, None, None)
  {
  }

  class Panel {
    const collection: string
    var displaySidebar: bool
    var categories: Option<seq<Category>>
    var localities: seq<string>
    var selectedProvince: Option<string>
    var selectedLocality: Option<string>
    var selectedCategory: Option<string>
    var startDate: Option<string>
    var endDate: Option<string>
    var form: FormValues
    var isLoadingLocalities: bool
    var isLoadingCategories: bool
    /** Every object emitted through `formFilterCallback`, oldest first. */
    var emitted: seq<FormData>

    constructor (collection: string)
      ensures this.collection == collection && !displaySidebar && categories == None && localities == []
      ensures selectedProvince == None && selectedLocality == None && selectedCategory == None
      ensures startDate == None && endDate == None && form == EmptyForm
      ensures isLoadingLocalities && isLoadingCategories && emitted == []
    {
      this.collection := collection;
      displaySidebar := false;
      categories := None;
      localities := [];
      selectedProvince, selectedLocality, selectedCategory := None, None, None;
      startDate, endDate := None, None;
      form := EmptyForm;
      isLoadingLocalities, isLoadingCategories := true, true;
      emitted := [];
    }

    /**
     * The category part of `ngOnInit`: fairs, localities and any other
     * collection without a categories request stop loading at once;
     * the others start from an empty list and wait for the response.
     */
    method InitCategories()
      modifies this`form, this`categories, this`isLoadingCategories
      ensures form == EmptyForm
      ensures collection !in CategorizedCollections ==> !isLoadingCategories && categories == old(categories)
      ensures collection in CategorizedCollections ==> isLoadingCategories == old(isLoadingCategories) && categories == Some([])
    {
      form := EmptyForm;
      if collection !in CategorizedCollections {
        isLoadingCategories := false;
        return;
      }
      categories := Some([]);
    }

    /** The categories response arrives: its rows are appended, then loading stops. */
    method CategoriesArrived(response: Outcome<CategoryRows>)
      requires categories.Some?
      modifies this`categories, this`isLoadingCategories
      ensures response.Ok? ==> categories == Some(old(categories.value) + CategoryItems(collection, response.body))
      ensures response.Failed? ==> categories == old(categories)
      ensures !isLoadingCategories
    {
      if response.Ok? {
        categories := Some(categories.value + CategoryItems(collection, response.body));
      }
      isLoadingCategories := false;
    }

    /** The locality names arrive: appended to the list, then loading stops. */
    method LocalitiesArrived(response: Outcome<seq<string>>)
      modifies this`localities, this`isLoadingLocalities
      ensures localities == old(localities) + (if response.Ok? then response.body else [])
      ensures !isLoadingLocalities
    {
      if response.Ok? {
        localities := localities + response.body;
      }
      isLoadingLocalities := false;
    }

    /** `_showHideModal`. */
    method ShowHideModal()
      modifies this`displaySidebar
      ensures displaySidebar == !old(displaySidebar)
    {
      displaySidebar := !displaySidebar;
    }

    /** `_clear(value)`: `'all'` nulls the five selections, a field name nulls that one only, anything else nothing. */
    method Clear(value: string)
      modifies this`selectedProvince, this`selectedLocality, this`selectedCategory, this`startDate, this`endDate
      ensures selectedProvince == (if value == "all" || value == "province" then None else old(selectedProvince))
      ensures selectedLocality == (if value == "all" || value == "locality" then None else old(selectedLocality))
      ensures selectedCategory == (if value == "all" || value == "category" then None else old(selectedCategory))
      ensures startDate == (if value == "all" || value == "startDate" then None else old(startDate))
      ensures endDate == (if value == "all" || value == "endDate" then None else old(endDate))
    {
      if value == "all" {
        selectedProvince, selectedLocality, selectedCategory := None, None, None;
        startDate, endDate := None, None;
      }
      if value == "province" { selectedProvince := None; }
      if value == "locality" { selectedLocality := None; }
      if value == "category" { selectedCategory := None; }
      if value == "startDate" { startDate := None; }
      if value == "endDate" { endDate := None; }
    }

    /** `_onFormFilterSubmit`: closes the panel and emits the form's data. */
    method Submit(localeDate: string -> string)
      modifies this`displaySidebar, this`emitted
      ensures !displaySidebar
      ensures emitted == old(emitted) + [Submitted(form, localeDate)]
    {
      displaySidebar := false;
      emitted := emitted + [Submitted(form, localeDate)];
    }

    /** `_resetForm`: clears the selections and the form, then submits all-null data. */
    method ResetForm(localeDate: string -> string)
      modifies this`selectedProvince, this`selectedLocality, this`selectedCategory, this`startDate, this`endDate,
        this`form, this`displaySidebar, this`emitted
      ensures selectedProvince == None && selectedLocality == None && selectedCategory == None
      ensures startDate == None && endDate == None && form == EmptyForm && !displaySidebar
      ensures emitted == old(emitted) + [FormData(None, None, None, None, None)]
      ensures categories == old(categories) && localities == old(localities)
      ensures isLoadingLocalities == old(isLoadingLocalities) && isLoadingCategories == old(isLoadingCategories)
    {
      Clear("all");
      form := EmptyForm;
      Submit(localeDate);
      EmptyFormSubmitsNulls(localeDate);
    }

    /** `_getFilterCount`: the number of set selections, as the one-digit string "0" to "5". */
    method GetFilterCount() returns (r: string)
      ensures |r| == 1 && '0' <= r[0] <= '5'
      ensures DigitsValue(r) == SelectionCount(selectedProvince, selectedLocality, selectedCategory, startDate, endDate)
    {
      var count := 0;
      if selectedProvince.Some? { count := count + 1; }
      if selectedLocality.Some? { count := count + 1; }
      if selectedCategory.Some? { count := count + 1; }
      if startDate.Some? { count := count + 1; }
      if endDate.Some? { count := count + 1; }
      r := NatToString(count);
      NatToStringValue(count);
    }
  }
}
