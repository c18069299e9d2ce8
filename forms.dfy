/** What the truck, trailer and route dialogs share: a Firestore document is a plain
    object of string fields, a dialog is opened on the document it edits (or on none),
    and saving merges the form into the edited document (`updateDoc`) or adds it as a
    new document (`addDoc`). */
module Forms {
  import opened Js

  type Doc = map<string, string>

  /** `doc.k || d`: the document's value for `k` unless it is missing or empty. */
  function FieldOr(doc: Doc, k: string, d: string): (r: string)
    ensures k in doc && doc[k] != "" ==> r == doc[k]
    ensures k !in doc || doc[k] == "" ==> r == d
  {
    OrString(Get(doc, k), d)
  }

  /** `{ ...form, ...doc }[k]`: the document's value for `k` whenever it has one,
      even an empty one, and the form's value `current` otherwise. */
  function SpreadOver(doc: Doc, k: string, current: string): string {
    if k in doc then doc[k] else current
  }

  /** `data?.id`, when the dialog edits a record with a non-empty id. */
  function EditId(data: Option<Doc>): (id: Option<string>)
    ensures id.Some? ==> data.Some? && "id" in data.value && id.value == data.value["id"] && id.value != ""
    ensures data.Some? && "id" in data.value && data.value["id"] != "" ==> id.Some?
  {
    if data.Some? && "id" in data.value && data.value["id"] != "" then Some(data.value["id"]) else None
  }

  /** The id a save writes under: the edited record's, or the fresh one. */
  function SavedId(editId: Option<string>, newId: string): string {
    if editId.Some? then editId.value else newId
  }

  /** The collection after a save: the form merged into the edited record, or added
      under the fresh id `newId`. A save changes exactly one record, that record then
      holds every field of the form, and an edited record keeps the fields the form
      does not have. */
  function Written(store: map<string, Doc>, editId: Option<string>, newId: string, form: Doc): (r: map<string, Doc>)
    requires editId.Some? ==> editId.value in store
    ensures r.Keys == store.Keys + {SavedId(editId, newId)}
    ensures forall k :: k in store && k != SavedId(editId, newId) ==> r[k] == store[k]
    ensures r[SavedId(editId, newId)].Keys
            == (if editId.Some? then store[editId.value].Keys else {}) + form.Keys
    ensures forall f :: f in form ==> r[SavedId(editId, newId)][f] == form[f]
    ensures editId.Some? ==> forall f :: f in store[editId.value] && f !in form
                                         ==> r[editId.value][f] == store[editId.value][f]
  {
    if editId.Some? then store[editId.value := store[editId.value] + form] else store[newId := form]
  }

  /** `/^\d{4}$/.test(s)` */
  predicate FourDigits(s: string) {
    |s| == 4 && AllDigits(s)
  }

  /** A four-digit string is never blank. */
  lemma FourDigitsNotBlank(s: string)
    ensures FourDigits(s) ==> !IsBlank(s)
  {
    if FourDigits(s) {
      assert IsDigit(s[0]);
    }
  }
}
