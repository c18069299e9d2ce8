/** src/components/layouts/admin-layouts/Trailers.tsx: the trailer list of an admin.
    The search keeps the trailers whose make, model or trailer number contains the
    search text, ignoring case; each card shows an icon for its type and a status
    chip. */
module Trailers {
  import opened Js

  /** A trailer as listed: the fields the page reads, each possibly missing. */
  datatype Trailer = Trailer(id: string, make: Option<string>, model: Option<string>,
                             trailerNumber: Option<string>, trailerType: Option<string>,
                             status: Option<string>)

  /** The predicate of `filteredTrailers`. */
  predicate TrailerShown(t: Trailer, search: string) {
    FieldMatches(t.make, search) || FieldMatches(t.model, search) || FieldMatches(t.trailerNumber, search)
  }

  function FilteredTrailers(trailers: seq<Trailer>, search: string): (r: seq<Trailer>)
    ensures forall i :: 0 <= i < |r| ==> r[i] in trailers && TrailerShown(r[i], search)
    ensures forall i :: 0 <= i < |trailers| && TrailerShown(trailers[i], search) ==> trailers[i] in r
  {
    Filter(trailers, (t: Trailer) => TrailerShown(t, search))
  }

  /** The shown trailers keep the order of the list, and the case of the search text
      does not matter. */
  lemma FilteredTrailersSpec(trailers: seq<Trailer>, search: string)
    ensures SubsequenceOf(FilteredTrailers(trailers, search), trailers)
    ensures FilteredTrailers(trailers, ToLower(search)) == FilteredTrailers(trailers, search)
  {
    FilterIsSubsequence(trailers, (t: Trailer) => TrailerShown(t, search));
    forall i | 0 <= i < |trailers|
      ensures TrailerShown(trailers[i], ToLower(search)) == TrailerShown(trailers[i], search)
    {
      FieldMatchesCaseBlind(trailers[i].make, search);
      FieldMatchesCaseBlind(trailers[i].model, search);
      FieldMatchesCaseBlind(trailers[i].trailerNumber, search);
    }
    FilterCongruent(trailers, (t: Trailer) => TrailerShown(t, ToLower(search)),
                    (t: Trailer) => TrailerShown(t, search));
  }

  /** A trailer with none of the three fields is never shown, not even for an empty
      search; one with a trailer number is shown for an empty search. */
  lemma TrailerShownCases(t: Trailer, search: string)
    ensures t.make.None? && t.model.None? && t.trailerNumber.None? ==> !TrailerShown(t, search)
    ensures t.trailerNumber.Some? && search == "" ==> TrailerShown(t, search)
  {
    if t.trailerNumber.Some? && search == "" {
      assert OccursAt(ToLower(t.trailerNumber.value), ToLower(search), 0);
    }
  }

  // ---------------------------------------------------------------------------
  // Icon
  // ---------------------------------------------------------------------------

  datatype Icon = Snowflake | Boxes | Layers | TruckIcon

  /** `renderTrailerIcon` as written: the lowercased type against three names. */
  function TrailerIconAsWritten(trailerType: Option<string>): (i: Icon)
    ensures i == Snowflake <==> trailerType.Some? && ToLower(trailerType.value) == "refrigerated"
    ensures i == Boxes <==> trailerType.Some? && ToLower(trailerType.value) == "dry van"
    ensures i == Layers <==> trailerType.Some? && ToLower(trailerType.value) == "flatbed"
  {
    if trailerType.None? then TruckIcon
    else
      var t := ToLower(trailerType.value);
      if t == "refrigerated" then Snowflake
      else if t == "dry van" then Boxes
      else if t == "flatbed" then Layers
      else TruckIcon
  }

  /** The refrigerated type the trailer dialog saves, "Refrigerated (Reefer)", gets
      the default icon, while "Dry Van" and "Flatbed" get theirs. */
  lemma ReeferGetsDefaultIcon()
    ensures TrailerIconAsWritten(Some("Refrigerated (Reefer)")) == TruckIcon
    ensures TrailerIconAsWritten(Some("Dry Van")) == Boxes
    ensures TrailerIconAsWritten(Some("Flatbed")) == Layers
  {
    assert ToLower("Refrigerated (Reefer)")[12] == ' ';
    assert ToLower("Dry Van") == "dry van";
    assert ToLower("Flatbed") == "flatbed";
  }

  /** The icon with the dialog's refrigerated type matched as well. */
  function TrailerIcon(trailerType: Option<string>): (i: Icon)
    ensures i == Snowflake <==> trailerType.Some? && ToLower(trailerType.value) in {"refrigerated", "refrigerated (reefer)"}
    ensures i == Boxes <==> trailerType.Some? && ToLower(trailerType.value) == "dry van"
    ensures i == Layers <==> trailerType.Some? && ToLower(trailerType.value) == "flatbed"
  {
    if trailerType.Some? && ToLower(trailerType.value) == "refrigerated (reefer)" then Snowflake
    else TrailerIconAsWritten(trailerType)
  }

  /** Of the five types the trailer dialog offers, the refrigerated, dry-van and
      flatbed types get their own icons ... */
  lemma TrailerIconSpec()
    ensures TrailerIcon(Some("Refrigerated (Reefer)")) == Snowflake
    ensures TrailerIcon(Some("Dry Van")) == Boxes && TrailerIcon(Some("Flatbed")) == Layers
  {
    assert ToLower("Refrigerated (Reefer)") == "refrigerated (reefer)";
    assert ToLower("Dry Van") == "dry van";
    assert ToLower("Flatbed") == "flatbed";
  }

  /** ... and the other two the default. */
  lemma TrailerIconDefault()
    ensures TrailerIcon(Some("Tanker")) == TruckIcon && TrailerIcon(Some("Lowboy")) == TruckIcon
  {
    assert ToLower("Tanker") == "tanker";
    assert ToLower("Lowboy") == "lowboy";
  }

  // ---------------------------------------------------------------------------
  // Status chip
  // ---------------------------------------------------------------------------

  datatype Tone = Blue | Green

  /** `trailer.status || "available"` */
  function ChipLabel(status: Option<string>): (text: string)
    ensures status.Some? && status.value != "" ==> text == status.value
    ensures status.None? || status.value == "" ==> text == "available"
  {
    OrString(status, "available")
  }

  /** The chip tone as written: blue only for the exact status "in use". */
  function ChipToneAsWritten(status: Option<string>): (t: Tone)
    ensures t == Blue <==> status == Some("in use")
  {
    if status == Some("in use") then Blue else Green
  }

  /** The trailer dialog saves "In Use", which the chip shows green, like an
      available trailer. */
  lemma InUseShownGreen()
    ensures ChipToneAsWritten(Some("In Use")) == Green
    ensures ChipToneAsWritten(Some("In Use")) == ChipToneAsWritten(Some("Available"))
  {
  }

  /** The chip tone with the status lowercased, as the chip displays it. */
  function ChipTone(status: Option<string>): (t: Tone)
    ensures t == Blue <==> status.Some? && ToLower(status.value) == "in use"
  {
    if status.Some? && ToLower(status.value) == "in use" then Blue else Green
  }

  /** With the lowercased comparison the dialog's two statuses get different tones,
      and the tone of "in use" is kept. */
  lemma ChipToneSpec()
    ensures ChipTone(Some("In Use")) == Blue && ChipTone(Some("Available")) == Green
    ensures ChipTone(Some("in use")) == ChipToneAsWritten(Some("in use"))
  {
    assert ToLower("In Use") == "in use";
    assert ToLower("in use") == "in use";
    assert ToLower("Available")[0] == 'a';
  }
}
