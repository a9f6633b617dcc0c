/** The session read by every protected page: the signed-in user's id and
    the free-form metadata stored on the identity. */
module Session {
  import opened Common

  /** A metadata value as the identity provider returns it (a JSON value). */
  datatype MetaValue = MetaBool(b: bool) | MetaText(s: string) | MetaOther

  datatype Metadata = Metadata(
    fullName: Option<MetaValue>,
    onboardingCompleted: Option<MetaValue>,
    salesPlatform: Option<MetaValue>,
    mainFocus: Option<MetaValue>)

  datatype Session = Session(userId: string, metadata: Metadata)

  const DefaultName: string := "Vendeur"

  /** The metadata carries a non-empty text name. */
  predicate HasName(m: Metadata)
  {
    m.fullName.Some? && m.fullName.value.MetaText? && m.fullName.value.s != ""
  }

  /** `metadata?.full_name || "Vendeur"`: a non-empty text name is shown as it
      is; a missing or empty name shows the placeholder. Names that are
      JavaScript-truthy but not strings are not modelled. */
  function DisplayName(m: Metadata): (name: string)
    ensures HasName(m) ==> name == m.fullName.value.s
    ensures !HasName(m) ==> name == DefaultName
    ensures name != ""
  {
    match m.fullName
    case Some(MetaText(s)) => if s != "" then s else DefaultName
    case _ => DefaultName
  }
}

/** The hosted backend's tables, seen as maps from row id to row. Each
    mutation the pages issue acts on one row and leaves every other row
    alone. */
module Store {

  type Table<R> = map<string, R>

  /** An insert with a generated id; a clash with an existing id is a
      primary-key violation and changes nothing. */
  function Insert<R>(t: Table<R>, id: string, row: R): (r: Table<R>)
    ensures r.Keys == t.Keys + {id}
    ensures id !in t ==> r[id] == row
    ensures forall k :: k in t ==> r[k] == t[k]
  {
    if id in t then t else t[id := row]
  }

  /** `update(...).eq('id', id)`: rewrites the matching row with `change`;
      no matching row means nothing changes. */
  function Update<R>(t: Table<R>, id: string, change: R -> R): (r: Table<R>)
    ensures r.Keys == t.Keys
    ensures id in t ==> r[id] == change(t[id])
    ensures forall k :: k in t && k != id ==> r[k] == t[k]
  {
    if id in t then t[id := change(t[id])] else t
  }

  /** `delete().eq('id', id)`. */
  function Delete<R>(t: Table<R>, id: string): (r: Table<R>)
    ensures r.Keys == t.Keys - {id}
    ensures forall k :: k in r ==> r[k] == t[k]
  {
    t - {id}
  }
}
