/**
 * The `approve_reviews` bulk action of reviews/admin.py: every selected
 * review row gets `is_approved = True` in place, the number of rows the
 * update matched is reported back to the admin user.
 */
module ReviewAdmin {
  import opened Text
  import opened Sorting
  import opened ReviewModels

  /** A review after the update: approved if its key is selected, otherwise as it was. */
  function ApproveOne(r: Review, selection: set<nat>): (approved: Review) {
    if r.id in selection then r.(isApproved := true) else r
  }

  /** `queryset.update(is_approved=True)` applied to the table. */
  function Approve(reviews: seq<Review>, selection: set<nat>): (result: seq<Review>)
    ensures |result| == |reviews|
  {
    seq(|reviews|, i requires 0 <= i < |reviews| => ApproveOne(reviews[i], selection))
  }

  /** The rows the admin's selection (a set of primary keys) matches. */
  function InSelection(selection: set<nat>): Review -> bool {
    (r: Review) => r.id in selection
  }

  /** The row count `update` returns. */
  function MatchedCount(reviews: seq<Review>, selection: set<nat>): (count: nat) {
    |Filter(InSelection(selection), reviews)|
  }

  /** The confirmation `message_user` shows. */
  function ApprovedMessage(updated: nat): (message: string) {
    DecimalString(updated) + " review(s) approved."
  }

  /** The message starts with the count and reads it back. */
  lemma ApprovedMessageCount(updated: nat)
    ensures ParseAmount(ApprovedMessage(updated)) == (updated, " review(s) approved.")
  {
    ParseAmountOf(updated, " review(s) approved.");
  }

  /**
   * After the update every selected row is approved, every other row is as it
   * was, and a selected row differs from before in `is_approved` alone.
   */
  lemma ApproveEffect(reviews: seq<Review>, selection: set<nat>)
    ensures forall i :: 0 <= i < |reviews| && reviews[i].id in selection ==> Approve(reviews, selection)[i].isApproved
    ensures forall i :: 0 <= i < |reviews| && reviews[i].id !in selection ==> Approve(reviews, selection)[i] == reviews[i]
    ensures forall i :: 0 <= i < |reviews| ==>
              Approve(reviews, selection)[i] == reviews[i].(isApproved := Approve(reviews, selection)[i].isApproved)
    ensures forall i :: 0 <= i < |reviews| ==> (Approve(reviews, selection)[i].isApproved <==> reviews[i].isApproved || reviews[i].id in selection)
  {
  }

  /** Approving the same selection twice leaves the table as approving it once. */
  lemma ApproveIdempotent(reviews: seq<Review>, selection: set<nat>)
    ensures Approve(Approve(reviews, selection), selection) == Approve(reviews, selection)
  {
  }

  function Ids(reviews: seq<Review>): (ids: set<nat>) {
    set r | r in reviews :: r.id
  }

  /** The keys of a table with unique keys: the first key, then the others, which do not repeat it. */
  lemma IdsCons(reviews: seq<Review>)
    requires |reviews| > 0
    requires forall i, j :: 0 <= i < j < |reviews| ==> reviews[i].id != reviews[j].id
    ensures Ids(reviews) == {reviews[0].id} + Ids(reviews[1..])
    ensures reviews[0].id !in Ids(reviews[1..])
  {
    var rest := reviews[1..];
    assert forall r :: r in reviews <==> r == reviews[0] || r in rest;
    forall k | 0 <= k < |rest| ensures rest[k].id != reviews[0].id {
      assert rest[k] == reviews[k + 1];
    }
  }

  lemma SelectedKeysCons(selection: set<nat>, x: nat, keys: set<nat>)
    requires x !in keys
    ensures |selection * ({x} + keys)| == (if x in selection then 1 else 0) + |selection * keys|
  {
    if x in selection {
      assert selection * ({x} + keys) == {x} + selection * keys;
    } else {
      assert selection * ({x} + keys) == selection * keys;
    }
  }

  /** With unique keys, the reported count is the number of selected keys that name a stored review. */
  lemma {:induction false} MatchedCountIsSelectedRows(reviews: seq<Review>, selection: set<nat>)
    requires forall i, j :: 0 <= i < j < |reviews| ==> reviews[i].id != reviews[j].id
    ensures MatchedCount(reviews, selection) == |selection * Ids(reviews)|
  {
    if |reviews| == 0 {
      assert Ids(reviews) == {};
    } else {
      var rest := reviews[1..];
      assert forall i, j :: 0 <= i < j < |rest| ==> rest[i].id != rest[j].id by {
        forall i, j | 0 <= i < j < |rest| ensures rest[i].id != rest[j].id {
          assert rest[i] == reviews[i + 1] && rest[j] == reviews[j + 1];
        }
      }
      MatchedCountIsSelectedRows(rest, selection);
      IdsCons(reviews);
      SelectedKeysCons(selection, reviews[0].id, Ids(rest));
      assert MatchedCount(reviews, selection) == (if reviews[0].id in selection then 1 else 0) + MatchedCount(rest, selection);
    }
  }

  /** The Review table, as the admin changelist sees it. */
  class ReviewStore {
    var reviews: seq<Review>

    /** Primary keys are unique. */
    ghost predicate Valid()
      reads this
    {
      forall i, j :: 0 <= i < j < |reviews| ==> reviews[i].id != reviews[j].id
    }

    constructor (initial: seq<Review>)
      requires forall i, j :: 0 <= i < j < |initial| ==> initial[i].id != initial[j].id
      ensures Valid() && reviews == initial
    {
      reviews := initial;
    }

    /** `queryset.update(is_approved=True)`: sets the flag on each matched row in turn and counts the rows. */
    method ApproveSelected(selection: set<nat>) returns (updated: nat)
      requires Valid()
      modifies this
      ensures Valid()
      ensures reviews == Approve(old(reviews), selection)
      ensures updated == MatchedCount(old(reviews), selection)
    {
      ghost var before := reviews;
      updated := 0;
      var i := 0;
      while i < |reviews|
        invariant 0 <= i <= |reviews| == |before|
        invariant forall k :: 0 <= k < i ==> reviews[k] == ApproveOne(before[k], selection)
        invariant forall k :: i <= k < |reviews| ==> reviews[k] == before[k]
        invariant updated == MatchedCount(before[..i], selection)
      {
        FilterAppend(InSelection(selection), before[..i], [before[i]]);
        assert before[..i + 1] == before[..i] + [before[i]];
        if reviews[i].id in selection {
          reviews := reviews[i := reviews[i].(isApproved := true)];
          updated := updated + 1;
        }
        i := i + 1;
      }
      assert before[..i] == before;
    }

    /** `ReviewAdmin.approve_reviews`: the update, then the confirmation message. */
    method ApproveReviews(selection: set<nat>) returns (message: string)
      requires Valid()
      modifies this
      ensures Valid()
      ensures reviews == Approve(old(reviews), selection)
      ensures message == ApprovedMessage(|selection * Ids(old(reviews))|)
    {
      MatchedCountIsSelectedRows(reviews, selection);
      var updated := ApproveSelected(selection);
      message := ApprovedMessage(updated);
    }
  }
}
