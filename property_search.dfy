/**
 * `src/components/property/PropertySearch.tsx`: the search form. Its field values, the
 * amenity check-boxes and the filter object handed to the search callback.
 */
module PropertySearch {
  import opened Ascii
  import opened Seqs

  /** A form field's value as JavaScript holds it. `NaN` is what `parseInt` returns for text that
      does not start with a digit. */
  datatype FormValue = Text(s: string) | Number(n: int) | NaN | Undefined | Null | Items(items: seq<string>)

  /** A `SearchFilters` object: the keys present, with their values. */
  type Filters = map<string, FormValue>

  const CityKey: string := "city"
  const SuburbKey: string := "suburb"
  const BedroomsKey: string := "bedrooms"
  const AmenitiesKey: string := "amenities"

  /** The values `onSubmit` deletes: `""`, `undefined`, `null`, `"all"` and `"any"`. */
  predicate IsPlaceholder(v: FormValue) {
    v == Text("") || v == Undefined || v == Null || v == Text("all") || v == Text("any")
  }

  /** The values `hasActiveFilters` counts: everything but `""`, `undefined`, `"all"`, `"any"`.
      `null` is not excluded here. */
  predicate IsActiveValue(v: FormValue) {
    v != Text("") && v != Undefined && v != Text("all") && v != Text("any")
  }

  /** JavaScript truthiness. */
  predicate Truthy(v: FormValue) {
    match v
    case Text(s) => s != ""
    case Number(n) => n != 0
    case NaN => false
    case Undefined => false
    case Null => false
    case Items(_) => true
  }

  /** The object `onSubmit` builds before cleaning: the form data with `amenities` set to the
      selection, or to `undefined` when nothing is selected. */
  function WithAmenities(data: Filters, selected: seq<string>): Filters {
    data[AmenitiesKey := if |selected| > 0 then Items(selected) else Undefined]
  }

  /** The filter object `onSubmit` hands to the search callback. */
  function Cleaned(data: Filters, selected: seq<string>): (r: Filters)
    ensures forall k :: k in r ==> !IsPlaceholder(r[k])
    ensures forall k :: k != AmenitiesKey ==> (k in r <==> k in data && !IsPlaceholder(data[k]))
    ensures forall k :: k != AmenitiesKey && k in r ==> r[k] == data[k]
    ensures AmenitiesKey in r <==> |selected| > 0
    ensures AmenitiesKey in r ==> r[AmenitiesKey] == Items(selected)
  {
    var all := WithAmenities(data, selected);
    map k | k in all && !IsPlaceholder(all[k]) :: all[k]
  }

  /** `handleAmenityChange`: checking appends (a duplicate is possible), unchecking drops every
      occurrence. */
  function AmenityChange(prev: seq<string>, amenity: string, checked: bool): (r: seq<string>)
    ensures checked ==> r == prev + [amenity]
    ensures !checked ==> r == RemoveAll(prev, amenity)
    ensures !checked ==> amenity !in r && multiset(r) == multiset(prev)[amenity := 0]
  {
    if checked then prev + [amenity]
    else
      RemoveAllMultiset(prev, amenity);
      RemoveAll(prev, amenity)
  }

  /** Checking an unchecked amenity and unchecking it again restores the selection. */
  lemma {:induction false} CheckThenUncheck(prev: seq<string>, amenity: string)
    requires amenity !in prev
    ensures AmenityChange(AmenityChange(prev, amenity, true), amenity, false) == prev
  {
    AppendThenRemoveAll(prev, amenity);
  }

  /** The digits `parseInt` reads from the start of a string. */
  function LeadingDigits(s: string): (d: string)
    ensures |d| <= |s| && d == s[..|d|]
    ensures forall i :: 0 <= i < |d| ==> IsDigit(d[i])
    ensures |d| < |s| ==> !IsDigit(s[|d|])
  {
    if s != [] && IsDigit(s[0]) then [s[0]] + LeadingDigits(s[1..]) else []
  }

  /** `parseInt(s)` on a string with no leading blank or sign. */
  function ParseInt(s: string): (v: FormValue)
    ensures v == NaN <==> s == [] || !IsDigit(s[0])
    ensures v.Number? ==> v.n >= 0
  {
    var d := LeadingDigits(s);
    if d == [] then NaN else Number(DecimalValue(d))
  }

  /** The Bedrooms select's handler, as written: `value ? parseInt(value) : undefined`. */
  function BedroomsChoiceAsWritten(value: string): (v: FormValue)
    ensures v == BedroomsChoice(value) <==> value != "any"
  {
    assert !IsDigit("any"[0]);
    if value != "" then ParseInt(value) else Undefined
  }

  /** The Bedrooms select's handler with the "Any" option mapped to `undefined`, as the
      neighbouring select's handler does. */
  function BedroomsChoice(value: string): (v: FormValue)
    ensures value == "any" || value == "" ==> v == Undefined
  {
    if value != "" && value != "any" then ParseInt(value) else Undefined
  }

  /** As written, choosing "Any" bedrooms submits a `bedrooms: NaN` filter. */
  lemma {:induction false} AsWrittenAnyBedroomsIsSubmitted(data: Filters, selected: seq<string>)
    ensures BedroomsChoiceAsWritten("any") == NaN
    ensures var r := Cleaned(data[BedroomsKey := BedroomsChoiceAsWritten("any")], selected);
      BedroomsKey in r && r[BedroomsKey] == NaN
  {
    assert !IsDigit("any"[0]);
  }

  /** Choosing "Any" bedrooms leaves no bedrooms filter; choosing a count submits that count. */
  lemma {:induction false} BedroomsChoiceSubmitted(data: Filters, selected: seq<string>, n: nat)
    requires 1 <= n <= 5
    ensures BedroomsKey !in Cleaned(data[BedroomsKey := BedroomsChoice("any")], selected)
    ensures var r := Cleaned(data[BedroomsKey := BedroomsChoice(NatToString(n))], selected);
      BedroomsKey in r && r[BedroomsKey] == Number(n)
  {
    var s := NatToString(n);
    assert s == [DigitChar(n)];
    assert LeadingDigits(s) == s by {
      assert s[1..] == [];
    }
    DecimalValueOfNatToString(n);
  }

  /** Nothing counted active means the search goes out with no filter at all. */
  lemma {:induction false} InactiveFormSubmitsNothing(data: Filters, selected: seq<string>)
    requires forall k :: k in data ==> !IsActiveValue(data[k])
    requires selected == []
    ensures Cleaned(data, selected) == map[]
  {
    var r := Cleaned(data, selected);
    assert forall k :: k in data ==> IsPlaceholder(data[k]);
    assert r.Keys == {};
  }

  /** An active non-null value outside `amenities`, or a selected amenity, always reaches the
      search. */
  lemma {:induction false} ActiveValueIsSubmitted(data: Filters, selected: seq<string>, k: string)
    requires k in data && k != AmenitiesKey && IsActiveValue(data[k]) && data[k] != Null
    ensures k in Cleaned(data, selected) && Cleaned(data, selected)[k] == data[k]
  {
  }

  /** `null` is the one value on which the two checks disagree: it counts as active, yet it is
      never submitted. */
  lemma {:induction false} NullActiveButDropped(data: Filters, selected: seq<string>, k: string)
    requires k != AmenitiesKey
    ensures IsActiveValue(Null)
    ensures k !in Cleaned(data[k := Null], selected)
  {
  }

  /** Going from `before` to `after` re-runs the city effect with a truthy city, which then
      clears the suburb. */
  predicate CityChangesTo(before: Filters, after: Filters) {
    && CityKey in after && Truthy(after[CityKey])
    && (CityKey !in before || before[CityKey] != after[CityKey])
  }

  class SearchForm {
    const initialFilters: Filters
    var values: Filters
    var selectedAmenities: seq<string>

    /** Mounting: the form starts from the initial filters, the selection from their
        `amenities`, and the city effect runs once. */
    constructor (initialFilters: Filters)
      ensures this.initialFilters == initialFilters
      ensures selectedAmenities == if AmenitiesKey in initialFilters && initialFilters[AmenitiesKey].Items?
        then initialFilters[AmenitiesKey].items else []
      ensures CityKey in initialFilters && Truthy(initialFilters[CityKey]) ==>
        values == initialFilters[SuburbKey := Text("")]
      ensures !(CityKey in initialFilters && Truthy(initialFilters[CityKey])) ==> values == initialFilters
    {
      this.initialFilters := initialFilters;
      selectedAmenities :=
        if AmenitiesKey in initialFilters && initialFilters[AmenitiesKey].Items?
        then initialFilters[AmenitiesKey].items else [];
      values :=
        if CityKey in initialFilters && Truthy(initialFilters[CityKey])
        then initialFilters[SuburbKey := Text("")] else initialFilters;
    }

    /** `setValue(key, v)`. When the city changes to a truthy value the effect clears the suburb. */
    method SetValue(key: string, v: FormValue)
      modifies this
      ensures selectedAmenities == old(selectedAmenities)
      ensures key == CityKey && Truthy(v) && (CityKey !in old(values) || old(values)[CityKey] != v) ==>
        values == old(values)[key := v][SuburbKey := Text("")]
      ensures !(key == CityKey && Truthy(v) && (CityKey !in old(values) || old(values)[CityKey] != v)) ==>
        values == old(values)[key := v]
    {
      var changedCity := key == CityKey && (CityKey !in values || values[CityKey] != v);
      values := values[key := v];
      if changedCity && Truthy(v) {
        values := values[SuburbKey := Text("")];
      }
    }

    /** Picking an option of the Bedrooms select. */
    method ChooseBedrooms(option: string)
      modifies this
      ensures values == old(values)[BedroomsKey := BedroomsChoice(option)]
      ensures selectedAmenities == old(selectedAmenities)
    {
      SetValue(BedroomsKey, BedroomsChoice(option));
    }

    method HandleAmenityChange(amenity: string, checked: bool)
      modifies this
      ensures selectedAmenities == AmenityChange(old(selectedAmenities), amenity, checked)
      ensures values == old(values)
    {
      selectedAmenities := AmenityChange(selectedAmenities, amenity, checked);
    }

    /** `onSubmit`: deletes the placeholder keys one by one and returns what is searched for. */
    method Submit() returns (filters: Filters)
      ensures filters == Cleaned(values, selectedAmenities)
    {
      filters := WithAmenities(values, selectedAmenities);
      ghost var start := filters;
      var keys := filters.Keys;
      while keys != {}
        invariant keys <= start.Keys
        invariant forall k :: k in filters <==> k in start && (k in keys || !IsPlaceholder(start[k]))
        invariant forall k :: k in filters ==> filters[k] == start[k]
        decreases keys
      {
        var key :| key in keys;
        if IsPlaceholder(filters[key]) {
          filters := filters - {key};
        }
        keys := keys - {key};
      }
      assert filters.Keys == Cleaned(values, selectedAmenities).Keys;
    }

    /** `clearFilters`: the form back to its initial values, no amenity selected, and an empty
        search. When the reset changes the city to a truthy one, the city effect clears the
        suburb again. */
    method ClearFilters() returns (filters: Filters)
      modifies this
      ensures CityChangesTo(old(values), initialFilters) ==> values == initialFilters[SuburbKey := Text("")]
      ensures !CityChangesTo(old(values), initialFilters) ==> values == initialFilters
      ensures selectedAmenities == []
      ensures filters == map[]
    {
      var changedCity := CityChangesTo(values, initialFilters);
      values := initialFilters;
      if changedCity {
        values := values[SuburbKey := Text("")];
      }
      selectedAmenities := [];
      filters := map[];
    }

    /** `hasActiveFilters`, which shows the Clear button. When it is false a submission searches
        with no filter at all. */
    function HasActiveFilters(): (b: bool)
      reads this
      ensures b <==> |selectedAmenities| > 0 || exists k :: k in values && IsActiveValue(values[k])
      ensures !b ==> Cleaned(values, selectedAmenities) == map[]
    {
      if |selectedAmenities| > 0 then true
      else if exists k :: k in values && IsActiveValue(values[k]) then true
      else
        InactiveFormSubmitsNothing(values, selectedAmenities);
        false
    }
  }
}
