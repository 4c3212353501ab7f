/**
  The roster table's selection handling: the select-all checkbox, the
  per-row checkbox, and the header's all-selected and indeterminate flags.
  The table is shown the searched roster, so `shown` below is the filtered
  contact list while the selection is the page's whole selection.
 */
module ContactList {
  import opened Seqs
  import opened Page

  /** The ids of the shown contacts, in table order. */
  function Ids(shown: seq<Contact>): (r: seq<string>)
    ensures |r| == |shown|
    ensures forall i :: 0 <= i < |shown| ==> r[i] == shown[i].id
  {
    seq(|shown|, i requires 0 <= i < |shown| => shown[i].id)
  }

  /** `handleSelectAll`: checking selects every shown contact, unchecking clears the selection. */
  function SelectAll(shown: seq<Contact>, checked: bool): (r: seq<string>)
    ensures checked ==> |r| == |shown| && forall i :: 0 <= i < |shown| ==> r[i] == shown[i].id
    ensures !checked ==> r == []
  {
    if checked then Ids(shown) else []
  }

  /** `handleSelectContact`: checking appends the id (no deduplication), unchecking removes every occurrence. */
  function SelectContact(selected: seq<string>, id: string, checked: bool): (r: seq<string>)
    ensures checked ==> |r| == |selected| + 1 && r[..|selected|] == selected && r[|selected|] == id
    ensures !checked ==> id !in r && (forall x :: x != id ==> (x in r <==> x in selected)) && IsSubsequence(r, selected)
    ensures !checked ==> forall x :: multiset(r)[x] == if x != id then multiset(selected)[x] else 0
  {
    if checked then selected + [id] else Without(selected, id)
  }

  /** Checking a row that was not selected and unchecking it again restores the selection. */
  lemma UncheckUndoesCheck(selected: seq<string>, id: string)
    requires id !in selected
    ensures SelectContact(SelectContact(selected, id, true), id, false) == selected
  {
    FilterAppend(Keeps(id), selected, [id]);
    FilterKeepsAll(Keeps(id), selected);
    assert Filter(Keeps(id), [id]) == [];
  }

  /** `isAllSelected`, as written: a comparison of counts only. */
  predicate IsAllSelected(shown: seq<Contact>, selected: seq<string>)
  {
    |shown| > 0 && |selected| == |shown|
  }

  /** `isIndeterminate`: some, but fewer than the shown count, are selected. */
  predicate IsIndeterminate(shown: seq<Contact>, selected: seq<string>)
  {
    |selected| > 0 && |selected| < |shown|
  }

  /** The header checkbox is never both checked and indeterminate. */
  lemma HeaderFlagsExclusive(shown: seq<Contact>, selected: seq<string>)
    ensures !(IsAllSelected(shown, selected) && IsIndeterminate(shown, selected))
  {
  }

  /** After select-all on a non-empty table the header shows all selected; after clearing, neither flag. */
  lemma SelectAllSetsHeader(shown: seq<Contact>)
    ensures |shown| > 0 ==> IsAllSelected(shown, SelectAll(shown, true))
    ensures !IsIndeterminate(shown, SelectAll(shown, true))
    ensures !IsAllSelected(shown, SelectAll(shown, false)) && !IsIndeterminate(shown, SelectAll(shown, false))
  {
  }

  /**
    The count comparison misreports a search: with contacts 1 to 4, 1 and 2
    selected and a search that shows only 3 and 4, the header claims that
    everything shown is selected although neither shown contact is.
   */
  lemma AllSelectedMisreportsHiddenSelection()
    ensures var shown := [Contact("3", "Carol", "333", [], ""), Contact("4", "Dan", "444", [], "")];
            var selected := ["1", "2"];
            IsAllSelected(shown, selected) && forall c :: c in shown ==> c.id !in selected
  {
  }

  /** The intended header state: the table is not empty and every shown contact's id is selected. */
  predicate AllShownSelected(shown: seq<Contact>, selected: seq<string>)
  {
    |shown| > 0 && forall c :: c in shown ==> c.id in selected
  }

  /** Select-all sets the intended flag, and unchecking any shown contact clears it. */
  lemma AllShownSelectedTracksSelection(shown: seq<Contact>, selected: seq<string>, k: nat)
    ensures |shown| > 0 ==> AllShownSelected(shown, SelectAll(shown, true))
    ensures k < |shown| ==> !AllShownSelected(shown, SelectContact(selected, shown[k].id, false))
  {
    if |shown| > 0 {
      forall c | c in shown
        ensures c.id in SelectAll(shown, true)
      {
        var i :| 0 <= i < |shown| && shown[i] == c;
        assert SelectAll(shown, true)[i] == c.id;
      }
    }
  }

  lemma SubsetOfSameSize<T>(a: set<T>, b: set<T>)
    requires a <= b && |a| == |b|
    ensures a == b
  {
    assert b == a + (b - a);
    assert |b| == |a| + |b - a|;
  }

  /**
    The count comparison is right exactly when the selection holds no hidden
    ids and no repetitions: then it agrees with the intended flag.
   */
  lemma AllSelectedAgreesWithoutHiddenSelection(shown: seq<Contact>, selected: seq<string>)
    requires Distinct(Ids(shown)) && Distinct(selected)
    requires forall x :: x in selected ==> x in Ids(shown)
    ensures IsAllSelected(shown, selected) <==> AllShownSelected(shown, selected)
  {
    var ids := Ids(shown);
    var shownIds := set x | x in ids;
    var selectedIds := set x | x in selected;
    DistinctSetCardinality(ids);
    DistinctSetCardinality(selected);
    assert selectedIds <= shownIds;
    if IsAllSelected(shown, selected) {
      SubsetOfSameSize(selectedIds, shownIds);
      forall c | c in shown
        ensures c.id in selected
      {
        var i :| 0 <= i < |shown| && shown[i] == c;
        assert ids[i] == c.id;
        assert c.id in shownIds;
        assert c.id in selectedIds;
      }
    }
    if AllShownSelected(shown, selected) {
      forall x | x in shownIds
        ensures x in selectedIds
      {
        var i :| 0 <= i < |ids| && ids[i] == x;
        assert shown[i] in shown;
      }
      assert shownIds == selectedIds;
    }
  }
}
