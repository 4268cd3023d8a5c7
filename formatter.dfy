/** The response shapes of lib/formatter.js: time-core's camel-case entities
    as snake-case JSON objects. */
module Formatter {
  import opened Js
  import opened TimeCore

  const ENTRY_KEYS: set<string> := {"id", "type", "category_id", "started_at", "ended_at"}
  const CATEGORY_KEYS: set<string> := {"id", "parent_id", "account_id", "name"}

  /** `formatter.entry`. A second argument such as `showDeleted` is ignored,
      so it is not a parameter here. */
  function FormatEntry(e: Entry): (o: Object)
    ensures o.Keys == ENTRY_KEYS
    ensures o["id"] == Num(e.id) && o["type"] == Str(TypeName(e.entryType))
    ensures o["category_id"] == Num(e.categoryID)
    ensures o["started_at"] == Str(e.startedAt) && o["ended_at"] == StrValue(e.endedAt)
  {
    map[
      "id" := Num(e.id),
      "type" := Str(TypeName(e.entryType)),
      "category_id" := Num(e.categoryID),
      "started_at" := Str(e.startedAt),
      "ended_at" := StrValue(e.endedAt)]
  }

  /** `formatter.category`. time-core gives a root category the parent id
      `null`, and the formatter copies it, so the key is present as `null`. */
  function FormatCategory(c: Category): (o: Object)
    ensures o.Keys == CATEGORY_KEYS
    ensures o["id"] == Num(c.id) && o["name"] == Str(c.name)
    ensures c.parentID.Some? ==> o["parent_id"] == Num(c.parentID.value)
    ensures c.parentID.None? ==> o["parent_id"] == Null
    ensures o["account_id"] == Num(c.accountID)
  {
    map[
      "id" := Num(c.id),
      "parent_id" := if c.parentID.Some? then Num(c.parentID.value) else Null,
      "account_id" := Num(c.accountID),
      "name" := Str(c.name)]
  }

  /** Reads an entry back from its formatted object: the inverse of
      `FormatEntry`, used to show that the renaming loses nothing. */
  function ReadEntry(o: Object): Option<Entry> {
    if o.Keys == ENTRY_KEYS
      && o["id"].Num? && o["type"].Str? && ParseType(o["type"].s).Some?
      && o["category_id"].Num? && o["started_at"].Str?
      && (o["ended_at"].Str? || o["ended_at"].Undefined?)
    then
      Some(Entry(o["id"].n, ParseType(o["type"].s).value, o["category_id"].n, o["started_at"].s,
        if o["ended_at"].Str? then Some(o["ended_at"].s) else None))
    else None
  }

  /** Reads a category back from its formatted object. */
  function ReadCategory(o: Object): Option<Category> {
    if o.Keys == CATEGORY_KEYS
      && o["id"].Num? && o["account_id"].Num? && o["name"].Str?
      && (o["parent_id"].Num? || o["parent_id"].Null?)
    then
      Some(Category(o["id"].n, o["account_id"].n,
        if o["parent_id"].Num? then Some(o["parent_id"].n) else None, o["name"].s))
    else None
  }

  /** Every field of an entry survives formatting under its new name. */
  lemma EntryRoundTrip(e: Entry)
    ensures ReadEntry(FormatEntry(e)) == Some(e)
  {
  }

  /** Every field of a category survives formatting under its new name. */
  lemma CategoryRoundTrip(c: Category)
    ensures ReadCategory(FormatCategory(c)) == Some(c)
  {
  }

  /** Two entries with the same formatted object are the same entry. */
  lemma FormatEntryInjective(e1: Entry, e2: Entry)
    requires FormatEntry(e1) == FormatEntry(e2)
    ensures e1 == e2
  {
    EntryRoundTrip(e1);
    EntryRoundTrip(e2);
  }
}
