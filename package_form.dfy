/**
 * The admin package editor: its initial state, the list editors for the itinerary
 * and the includes/excludes/highlights lists, and the cleaning done on submit.
 * Every editor returns a new list; none changes its argument.
 */
module PackageForm {
  import opened Options
  import opened Strings
  import Seqs

  datatype ItineraryDay = ItineraryDay(day: int, title: string, description: string)

  /** The text fields of an itinerary entry that the editor can change. */
  datatype ItineraryField = Title | Description

  /** The editable (non-numeric) part of the form's state. */
  datatype PackageState = PackageState(
    title: string,
    destination: string,
    description: string,
    imageUrl: string,
    departureDays: string,
    featured: bool,
    active: bool,
    itinerary: seq<ItineraryDay>,
    includes: seq<string>,
    excludes: seq<string>,
    highlights: seq<string>)

  /** The fields `initialData` may supply; a missing field is `None`. */
  datatype PackageInit = PackageInit(
    title: Option<string>,
    destination: Option<string>,
    description: Option<string>,
    imageUrl: Option<string>,
    departureDays: Option<string>,
    featured: Option<bool>,
    active: Option<bool>,
    itinerary: Option<seq<ItineraryDay>>,
    includes: Option<seq<string>>,
    excludes: Option<seq<string>>,
    highlights: Option<seq<string>>)

  /** `initialData?.field || fallback` for a string field: an empty string also falls back. */
  function TextOr(field: Option<string>): string {
    field.GetOr("")
  }

  /**
   * The state the editor starts in. Lists an edited package does not supply start as
   * one blank row (the itinerary as no rows); `active` defaults to true, `featured` to false.
   */
  function InitialState(init: Option<PackageInit>): (s: PackageState)
    ensures init.None? ==> s == PackageState("", "", "", "", "", false, true, [], [""], [""], [""])
    ensures init.Some? ==>
              && s.title == init.value.title.GetOr("")
              && s.destination == init.value.destination.GetOr("")
              && s.description == init.value.description.GetOr("")
              && s.imageUrl == init.value.imageUrl.GetOr("")
              && s.departureDays == init.value.departureDays.GetOr("")
              && s.active == init.value.active.GetOr(true)
              && s.featured == init.value.featured.GetOr(false)
              && s.itinerary == init.value.itinerary.GetOr([])
              && s.includes == init.value.includes.GetOr([""])
              && s.excludes == init.value.excludes.GetOr([""])
              && s.highlights == init.value.highlights.GetOr([""])
  {
    match init
    case None => PackageState("", "", "", "", "", false, true, [], [""], [""], [""])
    case Some(d) =>
      PackageState(TextOr(d.title), TextOr(d.destination), TextOr(d.description), TextOr(d.imageUrl),
                   TextOr(d.departureDays),
                   d.featured.GetOr(false), d.active.GetOr(true),
                   d.itinerary.GetOr([]), d.includes.GetOr([""]), d.excludes.GetOr([""]), d.highlights.GetOr([""]))
  }

  /** `addItineraryDay`: one empty entry appended, numbered one past the old length. */
  function AddItineraryDay(itinerary: seq<ItineraryDay>): (r: seq<ItineraryDay>)
    ensures |r| == |itinerary| + 1
    ensures r[..|itinerary|] == itinerary
    ensures r[|itinerary|] == ItineraryDay(|itinerary| + 1, "", "")
  {
    itinerary + [ItineraryDay(|itinerary| + 1, "", "")]
  }

  function SetField(d: ItineraryDay, field: ItineraryField, value: string): ItineraryDay {
    match field
    case Title => d.(title := value)
    case Description => d.(description := value)
  }

  /** `updateItinerary`: the named field of the entry at `index` set to `value`. */
  function UpdateItinerary(itinerary: seq<ItineraryDay>, index: int, field: ItineraryField, value: string): (r: seq<ItineraryDay>)
    requires 0 <= index < |itinerary|
    ensures |r| == |itinerary|
    ensures forall k :: 0 <= k < |r| && k != index ==> r[k] == itinerary[k]
    ensures r[index].day == itinerary[index].day
    ensures field == Title ==> r[index].title == value && r[index].description == itinerary[index].description
    ensures field == Description ==> r[index].description == value && r[index].title == itinerary[index].title
  {
    itinerary[index := SetField(itinerary[index], field, value)]
  }

  /**
   * `arr.filter((_, i) => i !== index)`: the element at `index` dropped, the rest kept in
   * order; an index outside the list drops nothing.
   */
  function RemoveAt<T>(s: seq<T>, index: int): (r: seq<T>)
    ensures 0 <= index < |s| ==> |r| == |s| - 1
    ensures 0 <= index < |s| ==> forall k :: 0 <= k < |r| ==> r[k] == s[if k < index then k else k + 1]
    ensures !(0 <= index < |s|) ==> r == s
    decreases |s|
  {
    if s == [] then [] else (if index == 0 then [] else [s[0]]) + RemoveAt(s[1..], index - 1)
  }

  /** Removing an in-range element takes exactly one occurrence of it out of the list's contents. */
  lemma {:induction false} RemoveAtContents<T>(s: seq<T>, index: int)
    requires 0 <= index < |s|
    ensures multiset(RemoveAt(s, index)) + multiset{s[index]} == multiset(s)
    decreases |s|
  {
    assert s == [s[0]] + s[1..];
    if index == 0 {
      assert RemoveAt(s, 0) == RemoveAt(s[1..], -1) == s[1..];
    } else {
      RemoveAtContents(s[1..], index - 1);
      assert s[1..][index - 1] == s[index];
      assert RemoveAt(s, index) == [s[0]] + RemoveAt(s[1..], index - 1);
    }
  }

  /** `removeItinerary`: the entry at `index` leaves the itinerary; nothing else does. */
  function RemoveItinerary(itinerary: seq<ItineraryDay>, index: int): (r: seq<ItineraryDay>)
    ensures 0 <= index < |itinerary| ==>
              |r| == |itinerary| - 1 && multiset(r) + multiset{itinerary[index]} == multiset(itinerary)
    ensures !(0 <= index < |itinerary|) ==> r == itinerary
  {
    if 0 <= index < |itinerary| then RemoveAtContents(itinerary, index); RemoveAt(itinerary, index)
    else RemoveAt(itinerary, index)
  }

  /** `addArrayItem`: one empty string appended. */
  function AddArrayItem(items: seq<string>): (r: seq<string>)
    ensures |r| == |items| + 1 && r[..|items|] == items && r[|items|] == ""
  {
    items + [""]
  }

  /** `updateArrayItem`: the element at `index` replaced. */
  function UpdateArrayItem(items: seq<string>, index: int, value: string): (r: seq<string>)
    requires 0 <= index < |items|
    ensures |r| == |items| && r[index] == value
    ensures forall k :: 0 <= k < |r| && k != index ==> r[k] == items[k]
  {
    items[index := value]
  }

  /** `removeArrayItem`: the item at `index` leaves the list; nothing else does. */
  function RemoveArrayItem(items: seq<string>, index: int): (r: seq<string>)
    ensures 0 <= index < |items| ==> |r| == |items| - 1 && multiset(r) + multiset{items[index]} == multiset(items)
    ensures !(0 <= index < |items|) ==> r == items
  {
    if 0 <= index < |items| then RemoveAtContents(items, index); RemoveAt(items, index)
    else RemoveAt(items, index)
  }

  /** An itinerary entry survives submit when both its title and description are non-empty. */
  predicate IsCompleteDay(d: ItineraryDay) {
    d.title != "" && d.description != ""
  }

  /** A list item survives submit when its trimmed text is non-empty. */
  predicate IsFilled(item: string) {
    Trim(item) != ""
  }

  function CleanItinerary(itinerary: seq<ItineraryDay>): seq<ItineraryDay> {
    Seqs.Filter(IsCompleteDay, itinerary)
  }

  function CleanList(items: seq<string>): seq<string> {
    Seqs.Filter(IsFilled, items)
  }

  /** The non-numeric part of the data handed to `onSubmit`. */
  datatype PackagePayload = PackagePayload(
    title: string,
    destination: string,
    description: string,
    imageUrl: string,
    departureDays: string,
    featured: bool,
    active: bool,
    itinerary: seq<ItineraryDay>,
    includes: seq<string>,
    excludes: seq<string>,
    highlights: seq<string>)

  /** The submitted form: scalar fields as they are, every list cleaned of blank rows. */
  function SubmitData(s: PackageState): (p: PackagePayload)
    ensures p.title == s.title && p.destination == s.destination && p.description == s.description
    ensures p.imageUrl == s.imageUrl && p.departureDays == s.departureDays
    ensures p.featured == s.featured && p.active == s.active
    ensures p.itinerary == CleanItinerary(s.itinerary)
    ensures p.includes == CleanList(s.includes) && p.excludes == CleanList(s.excludes)
    ensures p.highlights == CleanList(s.highlights)
    ensures Seqs.IsSubseq(p.itinerary, s.itinerary) && forall i :: 0 <= i < |p.itinerary| ==> IsCompleteDay(p.itinerary[i])
    ensures Seqs.IsSubseq(p.includes, s.includes) && forall i :: 0 <= i < |p.includes| ==> IsFilled(p.includes[i])
    ensures Seqs.IsSubseq(p.excludes, s.excludes) && forall i :: 0 <= i < |p.excludes| ==> IsFilled(p.excludes[i])
    ensures Seqs.IsSubseq(p.highlights, s.highlights) && forall i :: 0 <= i < |p.highlights| ==> IsFilled(p.highlights[i])
  {
    Seqs.FilterIsSubseq(IsCompleteDay, s.itinerary);
    Seqs.FilterIsSubseq(IsFilled, s.includes);
    Seqs.FilterIsSubseq(IsFilled, s.excludes);
    Seqs.FilterIsSubseq(IsFilled, s.highlights);
    PackagePayload(s.title, s.destination, s.description, s.imageUrl, s.departureDays, s.featured, s.active,
                   CleanItinerary(s.itinerary), CleanList(s.includes), CleanList(s.excludes), CleanList(s.highlights))
  }

  /** Submit drops only blank rows: every filled row survives, as often as it occurred. */
  lemma {:induction false} CleanListKeepsFilled(items: seq<string>)
    ensures forall x :: multiset(CleanList(items))[x] == if IsFilled(x) then multiset(items)[x] else 0
    ensures forall x :: x in CleanList(items) <==> x in items && Trim(x) != ""
  {
    Seqs.FilterKeeps(IsFilled, items);
  }

  /** Submit drops only incomplete itinerary entries: every complete one survives, as often as it occurred. */
  lemma CleanItineraryKeepsComplete(itinerary: seq<ItineraryDay>)
    ensures forall d :: multiset(CleanItinerary(itinerary))[d] == if IsCompleteDay(d) then multiset(itinerary)[d] else 0
    ensures forall d :: d in CleanItinerary(itinerary) <==> d in itinerary && d.title != "" && d.description != ""
  {
    Seqs.FilterKeeps(IsCompleteDay, itinerary);
  }

  /** A filled item contains a character other than white space. */
  lemma FilledMeansVisible(item: string)
    ensures IsFilled(item) <==> exists i :: 0 <= i < |item| && !IsWhitespace(item[i])
  {
    TrimEmptyIff(item);
  }

  /** Cleaning an already-cleaned list changes nothing. */
  lemma CleaningIdempotent(s: PackageState)
    ensures CleanList(CleanList(s.includes)) == CleanList(s.includes)
    ensures CleanItinerary(CleanItinerary(s.itinerary)) == CleanItinerary(s.itinerary)
  {
    Seqs.FilterIdempotent(IsFilled, s.includes);
    Seqs.FilterIdempotent(IsCompleteDay, s.itinerary);
  }

  /** Submitting an untouched new form sends no list rows at all. */
  lemma FreshFormSubmitsEmptyLists()
    ensures var p := SubmitData(InitialState(None));
            p.itinerary == [] && p.includes == [] && p.excludes == [] && p.highlights == [] && p.active
  {
    assert !IsFilled("") by {
      TrimEmptyIff("");
    }
  }

  /** Adding a row and removing it again gives back the original list. */
  lemma AddThenRemoveRestores(itinerary: seq<ItineraryDay>, items: seq<string>)
    ensures RemoveItinerary(AddItineraryDay(itinerary), |itinerary|) == itinerary
    ensures RemoveArrayItem(AddArrayItem(items), |items|) == items
  {
  }

  /** Entries numbered 1, 2, ..., n in list order (as repeated `addItineraryDay` leaves them). */
  predicate NumberedInOrder(itinerary: seq<ItineraryDay>) {
    forall k :: 0 <= k < |itinerary| ==> itinerary[k].day == k + 1
  }

  /** `addItineraryDay` keeps a list numbered in order. */
  lemma AddKeepsNumbering(itinerary: seq<ItineraryDay>)
    requires NumberedInOrder(itinerary)
    ensures NumberedInOrder(AddItineraryDay(itinerary))
  {
  }

  /**
   * Removing an entry does not renumber the rest: each survivor keeps its `day`, so
   * removing any entry but the last leaves a gap in the numbering.
   */
  lemma RemoveKeepsDayNumbers(itinerary: seq<ItineraryDay>, index: int)
    requires NumberedInOrder(itinerary)
    requires 0 <= index < |itinerary| - 1
    ensures forall k :: 0 <= k < |itinerary| - 1 ==>
              RemoveItinerary(itinerary, index)[k].day == (if k < index then k + 1 else k + 2)
    ensures !NumberedInOrder(RemoveItinerary(itinerary, index))
  {
    var r := RemoveItinerary(itinerary, index);
    assert r[index].day == index + 2;
  }
}
