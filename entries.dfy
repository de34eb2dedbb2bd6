/** Diary entries: the record, the draft check shared by both save buttons,
    and the history view of the newest entries. */
module Entries {
  import opened Wrappers
  import opened Moods
  import opened Text

  /** `type: 'full'` (the diary tab, with the daily question) or
      `type: 'minimal'` (the quick-entry tab, without one). */
  datatype Kind = Full | Minimal

  /** One diary record. `id` is the creation instant in milliseconds and
      `day` the local calendar day of its creation date. */
  datatype Entry = Entry(id: int, day: int, text: string, mood: Option<Mood>,
                         question: Option<string>, kind: Kind)

  /** The check both save handlers make before they build a record: the
      trimmed text is empty and no mood has been picked. */
  predicate IsBlank(trimmed: string, mood: Option<Mood>) {
    trimmed == [] && mood.None?
  }

  /** What every record built by a save looks like: its text is trimmed, it
      has a text or a mood, and it carries a question exactly when it is a
      full entry. */
  predicate WellFormed(e: Entry) {
    IsTrimmed(e.text) && (e.text != [] || e.mood.Some?) &&
    (e.kind == Full <==> e.question.Some?)
  }

  /** The record a save builds from the draft (`rawText` as typed, the mood
      picked for that tab, and for a full entry the question on display), or
      None when the draft is rejected. */
  function Compose(id: int, day: int, rawText: string, mood: Option<Mood>,
                   kind: Kind, shownQuestion: string): (r: Option<Entry>)
    ensures r.None? <==> WhitespaceBetween(rawText, 0, |rawText|) && mood.None?
    ensures r.Some? ==> WellFormed(r.value) && r.value.kind == kind
    ensures r.Some? ==> r.value.id == id && r.value.day == day && r.value.mood == mood
    ensures r.Some? ==> r.value.text == Trim(rawText)
    ensures r.Some? && kind == Full ==> r.value.question == Some(shownQuestion)
  {
    var text := Trim(rawText);
    if IsBlank(text, mood) then None
    else Some(Entry(id, day, text, mood, if kind == Full then Some(shownQuestion) else None, kind))
  }

  /** How many entries the history list shows at most. */
  const PageSize: nat := 10

  /** The history list: a placeholder when there are no entries; otherwise
      the entries shown, and the "N more" count when some are hidden. */
  datatype History = NoEntries | Listing(shown: seq<Entry>, more: Option<nat>)

  /** `loadEntries`: the first ten entries in stored order (newest first),
      followed by the number of older ones when there are more than ten. */
  function HistoryView(entries: seq<Entry>): (h: History)
    ensures h.NoEntries? <==> entries == []
    ensures h.Listing? ==> |h.shown| <= PageSize && |h.shown| <= |entries|
    ensures h.Listing? ==> h.shown == entries[..|h.shown|]
    ensures h.Listing? ==> |h.shown| == PageSize || h.shown == entries
    ensures h.Listing? ==> (h.more.Some? <==> |entries| > PageSize)
    ensures h.Listing? && h.more.Some? ==> |h.shown| + h.more.value == |entries|
  {
    if |entries| == 0 then NoEntries
    else
      var n := if |entries| < PageSize then |entries| else PageSize;
      Listing(entries[..n], if |entries| > PageSize then Some(|entries| - PageSize) else None)
  }

  /** Newest first by creation instant: strictly decreasing ids. */
  predicate NewestFirst(entries: seq<Entry>) {
    forall i, j :: 0 <= i < j < |entries| ==> entries[i].id > entries[j].id
  }

  /** While the clock moves forward, putting each new record at the front
      keeps the list newest first, and the new record heads the history. */
  lemma PushKeepsNewestFirst(e: Entry, entries: seq<Entry>)
    requires NewestFirst(entries)
    requires entries == [] || e.id > entries[0].id
    ensures NewestFirst([e] + entries)
    ensures HistoryView([e] + entries).shown[0] == e
  {
  }
}
