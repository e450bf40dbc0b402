/**
 * The saved motivation-letter drafts and the two changes the page makes to
 * their list: saving a new draft at the front, and deleting by id.
 */
module Drafts {
  import opened Text

  /**
   * One saved draft. `id` is the millisecond clock when it was saved and
   * `savedAt` that moment formatted as text; both come from outside the model.
   */
  datatype Draft = Draft(id: int, companyName: string, text: string, savedAt: string)

  /** A field as saving stores it: non-empty, with no whitespace at either end (see TrimFixedIff). */
  predicate Filled(s: string) {
    s != [] && !IsSpace(s[0]) && !IsSpace(s[|s| - 1])
  }

  /** The shape of every draft the page itself saves. */
  predicate WellFormed(d: Draft) {
    Filled(d.companyName) && Filled(d.text)
  }

  predicate AllWellFormed(drafts: seq<Draft>) {
    forall d :: d in drafts ==> WellFormed(d)
  }

  /** The save guard: both the company name and the text are non-empty once trimmed. */
  predicate Accepts(companyName: string, text: string) {
    Trim(companyName) != [] && Trim(text) != []
  }

  /**
   * The stored list after a save of the given form values: rejected input
   * leaves it as it was; accepted input puts one new draft holding the trimmed
   * values, `id` and `savedAt` at the front, and every older draft follows in
   * its old order.
   */
  function Save(drafts: seq<Draft>, companyName: string, text: string, id: int, savedAt: string): (r: seq<Draft>)
    ensures !Accepts(companyName, text) ==> r == drafts
    ensures Accepts(companyName, text) ==>
      |r| == |drafts| + 1 && r[1..] == drafts &&
      r[0].id == id && r[0].savedAt == savedAt &&
      r[0].companyName == Trim(companyName) && r[0].text == Trim(text) &&
      WellFormed(r[0])
  {
    if Accepts(companyName, text) then [Draft(id, Trim(companyName), Trim(text), savedAt)] + drafts
    else drafts
  }

  /** A save either leaves the list alone or grows it by exactly one. */
  lemma SaveSize(drafts: seq<Draft>, companyName: string, text: string, id: int, savedAt: string)
    ensures |Save(drafts, companyName, text, id, savedAt)| == |drafts| + 1 <==> Accepts(companyName, text)
    ensures Save(drafts, companyName, text, id, savedAt) == drafts <==> !Accepts(companyName, text)
  {
  }

  /** Saving keeps a list of well-formed drafts well formed. */
  lemma SavePreservesWellFormed(drafts: seq<Draft>, companyName: string, text: string, id: int, savedAt: string)
    requires AllWellFormed(drafts)
    ensures AllWellFormed(Save(drafts, companyName, text, id, savedAt))
  {
  }

  /** `drafts.filter(draft => draft.id !== id)`: the drafts whose id differs from `id`, in order. */
  function RemoveId(drafts: seq<Draft>, id: int): (r: seq<Draft>)
    ensures |r| <= |drafts|
    ensures forall k :: 0 <= k < |r| ==> r[k].id != id
  {
    if drafts == [] then []
    else if drafts[0].id == id then RemoveId(drafts[1..], id)
    else [drafts[0]] + RemoveId(drafts[1..], id)
  }

  /** A draft survives a delete if and only if it was stored and carries another id. */
  lemma {:induction false} RemoveIdMembers(drafts: seq<Draft>, id: int)
    ensures forall d :: d in RemoveId(drafts, id) <==> d in drafts && d.id != id
  {
    if drafts != [] {
      RemoveIdMembers(drafts[1..], id);
      assert drafts == [drafts[0]] + drafts[1..];
    }
  }

  /** Deleting works draft by draft, so survivors keep their relative order. */
  lemma {:induction false} RemoveIdAppend(a: seq<Draft>, b: seq<Draft>, id: int)
    ensures RemoveId(a + b, id) == RemoveId(a, id) + RemoveId(b, id)
  {
    if a == [] {
      assert a + b == b;
    } else {
      assert (a + b)[0] == a[0];
      assert (a + b)[1..] == a[1..] + b;
      RemoveIdAppend(a[1..], b, id);
    }
  }

  /** Every draft with that id is gone and every other draft is kept as often as it occurred. */
  lemma {:induction false} RemoveIdCounts(drafts: seq<Draft>, id: int, d: Draft)
    ensures multiset(RemoveId(drafts, id))[d] == if d.id == id then 0 else multiset(drafts)[d]
  {
    if drafts != [] {
      RemoveIdCounts(drafts[1..], id, d);
      assert drafts == [drafts[0]] + drafts[1..];
    }
  }

  /** True when no stored draft carries `id`. */
  predicate NoneWithId(drafts: seq<Draft>, id: int) {
    forall k :: 0 <= k < |drafts| ==> drafts[k].id != id
  }

  /** Deleting leaves the list unchanged if and only if no draft carries that id. */
  lemma {:induction false} RemoveIdUnchangedIff(drafts: seq<Draft>, id: int)
    ensures RemoveId(drafts, id) == drafts <==> NoneWithId(drafts, id)
  {
    if drafts != [] {
      var rest := drafts[1..];
      RemoveIdUnchangedIff(rest, id);
      if drafts[0].id == id {
        assert |RemoveId(drafts, id)| <= |rest|;
      } else {
        assert RemoveId(drafts, id) == [drafts[0]] + RemoveId(rest, id);
        assert NoneWithId(drafts, id) <==> NoneWithId(rest, id) by {
          assert forall k :: 1 <= k < |drafts| ==> drafts[k] == rest[k - 1];
        }
        assert drafts == [drafts[0]] + rest;
      }
    }
  }

  /** Deleting the same id a second time changes nothing. */
  lemma RemoveIdIdempotent(drafts: seq<Draft>, id: int)
    ensures RemoveId(RemoveId(drafts, id), id) == RemoveId(drafts, id)
  {
  }

  /** Deleting keeps a list of well-formed drafts well formed. */
  lemma RemoveIdPreservesWellFormed(drafts: seq<Draft>, id: int)
    requires AllWellFormed(drafts)
    ensures AllWellFormed(RemoveId(drafts, id))
  {
  }
}
