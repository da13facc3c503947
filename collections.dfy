// The named descriptor collections a Type keeps (mFunctions, mProperties,
// mFields) and the small Option type the rest of the model uses.
//
// The container itself is declared in a header that is not part of this
// model; it is used only through Emplace and FindFirst. Here a collection is
// a sequence of (name, descriptor) entries: Emplace appends an entry and
// FindFirst finds the earliest entry with a given name. Duplicate names are
// kept, never overwritten.
module Collections {

  datatype Option<T> = None | Some(value: T)

  /** Index of the earliest entry called `name`, or None when no entry has that name. */
  function FindFirst<D>(entries: seq<(string, D)>, name: string): (r: Option<nat>)
    ensures r.Some? ==> r.value < |entries| && entries[r.value].0 == name
    ensures r.Some? ==> forall j :: 0 <= j < r.value ==> entries[j].0 != name
    ensures r.None? <==> forall j :: 0 <= j < |entries| ==> entries[j].0 != name
  {
    if |entries| == 0 then None
    else if entries[0].0 == name then Some(0)
    else match FindFirst(entries[1..], name)
      case None => None
      case Some(i) => Some(i + 1)
  }

  /** Emplacing an entry never changes which entry an earlier name finds;
      a name that was absent finds the new entry exactly when it carries that name. */
  lemma {:induction false} FindFirstAfterEmplace<D>(entries: seq<(string, D)>, e: (string, D), name: string)
    ensures FindFirst(entries + [e], name) ==
      if FindFirst(entries, name).Some? then FindFirst(entries, name)
      else if e.0 == name then Some(|entries|)
      else None
  {
    if |entries| > 0 && entries[0].0 != name {
      assert (entries + [e])[1..] == entries[1..] + [e];
      FindFirstAfterEmplace(entries[1..], e, name);
    }
  }
}
