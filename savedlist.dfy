/**
 * The saved-drafts list as the page shows it: a placeholder message when
 * nothing is stored, otherwise one entry per draft in stored order, each
 * with the draft's text prepared for display and a delete control bound to
 * the draft's id.
 */
module SavedList {
  import opened Text
  import opened Drafts

  /** "まだ保存された志望動機はありません。", shown when the list is empty. */
  const EmptyMessage: string := "まだ保存された志望動機はありません。"

  /** One listed draft: heading, save time, body markup and the id its delete button removes. */
  datatype Entry = Entry(companyName: string, savedAt: string, body: string, deleteId: int)

  /** The content of the list container. */
  datatype ListView = Placeholder(message: string) | Entries(entries: seq<Entry>)

  /** The entry for one draft: its text with every line feed shown as `<br>`. */
  function EntryFor(d: Draft): (e: Entry)
    ensures e.body == ReplaceNewlines(d.text)
    ensures '\n' !in e.body
    ensures '\n' !in d.text ==> e.body == d.text
    ensures e.deleteId == d.id && e.companyName == d.companyName && e.savedAt == d.savedAt
  {
    Entry(d.companyName, d.savedAt, ReplaceNewlines(d.text), d.id)
  }

  /** One entry per draft, in the drafts' order. */
  function EntriesFor(drafts: seq<Draft>): (r: seq<Entry>)
    ensures |r| == |drafts|
    ensures forall k :: 0 <= k < |r| ==> r[k] == EntryFor(drafts[k])
  {
    if drafts == [] then [] else [EntryFor(drafts[0])] + EntriesFor(drafts[1..])
  }

  /** `renderDrafts`: the placeholder for an empty list, otherwise the entries. */
  function Render(drafts: seq<Draft>): (v: ListView)
    ensures v.Placeholder? <==> drafts == []
    ensures v.Placeholder? ==> v.message == EmptyMessage
    ensures v.Entries? ==> v.entries == EntriesFor(drafts)
  {
    if |drafts| == 0 then Placeholder(EmptyMessage) else Entries(EntriesFor(drafts))
  }

  /** Listing commutes with concatenation, which is what "in list order" means. */
  lemma EntriesForAppend(a: seq<Draft>, b: seq<Draft>)
    ensures EntriesFor(a + b) == EntriesFor(a) + EntriesFor(b)
  {
  }

  /** After an accepted save the list shows the new draft first, then exactly what it showed before. */
  lemma RenderAfterSave(drafts: seq<Draft>, companyName: string, text: string, id: int, savedAt: string)
    requires Accepts(companyName, text)
    ensures Render(Save(drafts, companyName, text, id, savedAt)).Entries?
    ensures var r := Save(drafts, companyName, text, id, savedAt);
      Render(r).entries == [EntryFor(r[0])] + EntriesFor(drafts)
  {
  }

  /** The entries whose delete control does not point at `id`. */
  function EntriesWithout(entries: seq<Entry>, id: int): seq<Entry> {
    if entries == [] then []
    else if entries[0].deleteId == id then EntriesWithout(entries[1..], id)
    else [entries[0]] + EntriesWithout(entries[1..], id)
  }

  /**
   * After a confirmed delete the entries are the old entries minus those for
   * `id`, in the same order; the view shows them unless no draft is left.
   */
  lemma {:induction false} RenderAfterDelete(drafts: seq<Draft>, id: int)
    ensures EntriesFor(RemoveId(drafts, id)) == EntriesWithout(EntriesFor(drafts), id)
    ensures RemoveId(drafts, id) == [] ==> Render(RemoveId(drafts, id)) == Placeholder(EmptyMessage)
    ensures RemoveId(drafts, id) != [] ==>
      Render(RemoveId(drafts, id)) == Entries(EntriesWithout(EntriesFor(drafts), id))
  {
    if drafts != [] {
      RenderAfterDelete(drafts[1..], id);
      var e := EntriesFor(drafts);
      assert e[1..] == EntriesFor(drafts[1..]);
    }
  }
}
