/**
 * The drafts page as a whole: the stored list that stands for the
 * `esDrafts` storage slot, the two form fields, the character counter and
 * the saved-list container, together with the handlers that change them.
 */
module App {
  import opened Text
  import opened CharCount
  import opened Drafts
  import opened SavedList

  class Page {
    /** The drafts in the storage slot, most recent first; a write is read back unchanged. */
    var stored: seq<Draft>
    /** The value of the company-name input. */
    var companyName: string
    /** The value of the motivation textarea. */
    var motivationText: string
    /** The character counter element. */
    var charCount: Counter
    /** The content of the saved-list container. */
    var savedList: ListView

    /** The page shows its state: the list shows the stored drafts and the counter the textarea. */
    predicate Shown()
      reads this
    {
      savedList == Render(stored) && charCount == CounterFor(motivationText)
    }

    /**
     * The page loaded with `saved` in storage and an empty form; the
     * `DOMContentLoaded` listener renders the list.
     */
    constructor (saved: seq<Draft>)
      ensures stored == saved && companyName == [] && motivationText == []
      ensures Shown()
    {
      stored := saved;
      companyName := [];
      motivationText := [];
      charCount := CounterFor([]);
      new;
      RenderDrafts();
    }

    /** `updateCharCount`: show the textarea's length, and the warning in red past the limit. */
    method UpdateCharCount()
      modifies this`charCount
      ensures charCount == CounterFor(motivationText)
    {
      var currentLength := |motivationText|;
      var caption := LabelPrefix + Decimal(currentLength);
      var color := Initial;
      if currentLength > Limit {
        color := Red;
        caption := caption + OverLimitNotice;
      }
      charCount := Counter(caption, color);
    }

    /** The user edits the company-name input; no listener is attached to it. */
    method InputCompanyName(value: string)
      modifies this`companyName
      ensures companyName == value
    {
      companyName := value;
    }

    /** The user edits the textarea; its `input` listener refreshes the counter. */
    method InputMotivationText(value: string)
      modifies this`motivationText, this`charCount
      ensures motivationText == value && charCount == CounterFor(value)
    {
      motivationText := value;
      UpdateCharCount();
    }

    /** `renderDrafts`: empty the container, then show the placeholder or append one entry per stored draft. */
    method RenderDrafts()
      modifies this`savedList
      ensures savedList == Render(stored)
    {
      var drafts := stored;
      savedList := Entries([]);
      if |drafts| == 0 {
        savedList := Placeholder(EmptyMessage);
        return;
      }
      var i := 0;
      while i < |drafts|
        invariant 0 <= i <= |drafts|
        invariant savedList.Entries? && |savedList.entries| == i
        invariant forall k :: 0 <= k < i ==> savedList.entries[k] == EntryFor(drafts[k])
      {
        savedList := Entries(savedList.entries + [EntryFor(drafts[i])]);
        i := i + 1;
      }
      assert savedList.entries == EntriesFor(drafts);
    }

    /**
     * `handleSave` with the clock read as `id` and `savedAt`. Input whose
     * trimmed company name or trimmed text is empty is rejected and nothing
     * changes. Otherwise the new draft goes to the front of the stored list,
     * the list is rendered again and the form and its counter are cleared.
     * The counter's warning plays no part.
     */
    method HandleSave(id: int, savedAt: string) returns (saved: bool)
      modifies this
      ensures saved == Accepts(old(companyName), old(motivationText))
      ensures stored == Save(old(stored), old(companyName), old(motivationText), id, savedAt)
      ensures saved ==> companyName == [] && motivationText == []
      ensures saved ==> savedList == Render(stored) && charCount == CounterFor([])
      ensures !saved ==> companyName == old(companyName) && motivationText == old(motivationText)
      ensures !saved ==> savedList == old(savedList) && charCount == old(charCount)
      ensures old(Shown()) ==> Shown()
      ensures AllWellFormed(old(stored)) ==> AllWellFormed(stored)
    {
      var name := Trim(companyName);
      var text := Trim(motivationText);
      if name == [] || text == [] {
        return false;
      }
      var newDraft := Draft(id, name, text, savedAt);
      var drafts := stored;
      drafts := [newDraft] + drafts;
      if AllWellFormed(stored) {
        SavePreservesWellFormed(stored, companyName, motivationText, id, savedAt);
      }
      stored := drafts;
      RenderDrafts();
      companyName := [];
      motivationText := [];
      UpdateCharCount();
      saved := true;
    }

    /**
     * `deleteDraft` with the confirmation dialog's answer as `confirmed`:
     * declined, nothing changes; confirmed, every stored draft with that id
     * is dropped and the list is rendered again. The form is never touched.
     */
    method DeleteDraft(id: int, confirmed: bool)
      modifies this`stored, this`savedList
      ensures stored == if confirmed then RemoveId(old(stored), id) else old(stored)
      ensures savedList == if confirmed then Render(stored) else old(savedList)
      ensures old(Shown()) ==> Shown()
      ensures AllWellFormed(old(stored)) ==> AllWellFormed(stored)
    {
      if !confirmed {
        return;
      }
      var drafts := stored;
      drafts := RemoveId(drafts, id);
      if AllWellFormed(stored) {
        RemoveIdPreservesWellFormed(stored, id);
      }
      stored := drafts;
      RenderDrafts();
    }
  }

  /**
   * The counter's warning never blocks saving: whatever its length, accepted
   * input is saved as the new first draft, and past the limit the counter is
   * red at the same time.
   */
  lemma WarningNeverBlocksSave(drafts: seq<Draft>, companyName: string, text: string, id: int, savedAt: string)
    requires Accepts(companyName, text)
    ensures |text| > Limit ==> CounterFor(text).color == Red
    ensures Save(drafts, companyName, text, id, savedAt) ==
      [Draft(id, Trim(companyName), Trim(text), savedAt)] + drafts
  {
  }
}
