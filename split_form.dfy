/** The state of the split-transaction form: the list of splits the user
    is editing, the operations that add, remove and edit a split, and the
    rule that decides when the splits may be submitted. */
module SplitForm {
  import opened Common

  datatype Split = Split(categoryId: int, amountCents: int, notes: string)

  /** A fresh row: no category, no amount, no notes. */
  const EmptySplit := Split(0, 0, "")

  /** `{ ...split, [field]: value }` for each field the form can set. */
  datatype SplitEdit = SetCategory(categoryId: int) | SetAmount(amountCents: int) | SetNotes(notes: string)

  function Apply(s: Split, e: SplitEdit): Split
  {
    match e
    case SetCategory(c) => s.(categoryId := c)
    case SetAmount(a) => s.(amountCents := a)
    case SetNotes(n) => s.(notes := n)
  }

  function AmountOf(s: Split): int { s.amountCents }

  /** `splits.filter((_, i) => i !== index)` */
  function WithoutIndex(s: seq<Split>, index: int): (r: seq<Split>)
    ensures 0 <= index < |s| ==> r == s[..index] + s[index + 1..]
    ensures !(0 <= index < |s|) ==> r == s
  {
    if s == [] then []
    else
      var init := s[..|s| - 1];
      WithoutIndex(init, index) + (if |s| - 1 != index then [s[|s| - 1]] else [])
  }

  // ---------------------------------------------------------------------
  // Totals and validity

  /** totalSplitCents */
  function TotalOf(splits: seq<Split>): int
  {
    SumOf(splits, AmountOf)
  }

  /** remainingCents */
  function Remaining(totalAmountCents: int, splits: seq<Split>): int
  {
    totalAmountCents - TotalOf(splits)
  }

  predicate Complete(s: Split)
  {
    s.categoryId > 0 && s.amountCents > 0
  }

  /** isValid: the splits add up to the transaction and each has a
      category and a positive amount; nothing is then left to assign. */
  function IsValid(totalAmountCents: int, splits: seq<Split>): (r: bool)
    ensures r ==> Remaining(totalAmountCents, splits) == 0
    ensures r ==> forall s :: s in splits ==> s.categoryId > 0 && s.amountCents > 0
  {
    TotalOf(splits) == totalAmountCents && forall s :: s in splits ==> Complete(s)
  }

  /** Splits with positive amounts add up to at least one cent each. */
  lemma {:induction false} TotalAtLeastCount(splits: seq<Split>)
    requires forall s :: s in splits ==> s.amountCents > 0
    ensures TotalOf(splits) >= |splits|
  {
    if splits != [] {
      var init, x := splits[..|splits| - 1], splits[|splits| - 1];
      forall s | s in init ensures s.amountCents > 0 { assert s in splits; }
      TotalAtLeastCount(init);
      assert x in splits;
      assert init + [x] == splits;
      SumOfSnoc(init, x, AmountOf);
    }
  }

  /** A valid form needs a transaction of at least one cent per split. */
  lemma ValidNeedsEnough(totalAmountCents: int, splits: seq<Split>)
    requires IsValid(totalAmountCents, splits)
    ensures totalAmountCents >= |splits|
  {
    TotalAtLeastCount(splits);
  }

  /** A row with no category is never valid, so neither is the form it is in. */
  lemma EmptySplitInvalid(totalAmountCents: int, splits: seq<Split>)
    requires EmptySplit in splits
    ensures !IsValid(totalAmountCents, splits)
  {
    assert !Complete(EmptySplit);
  }

  /** The total after an added row is the total before. */
  lemma TotalAfterAdd(splits: seq<Split>)
    ensures TotalOf(splits + [EmptySplit]) == TotalOf(splits)
  {
    SumOfSnoc(splits, EmptySplit, AmountOf);
  }

  /** Removing a row takes its amount off the total. */
  lemma TotalAfterRemove(splits: seq<Split>, index: int)
    requires 0 <= index < |splits|
    ensures TotalOf(WithoutIndex(splits, index)) == TotalOf(splits) - splits[index].amountCents
  {
    var a, b := splits[..index], splits[index + 1..];
    assert splits == a + [splits[index]] + b;
    SumOfAppend(a + [splits[index]], b, AmountOf);
    SumOfSnoc(a, splits[index], AmountOf);
    SumOfAppend(a, b, AmountOf);
  }

  /** Editing a row changes the total by the change of its amount alone. */
  lemma TotalAfterEdit(splits: seq<Split>, index: int, e: SplitEdit)
    requires 0 <= index < |splits|
    ensures TotalOf(splits[index := Apply(splits[index], e)])
            == TotalOf(splits) - splits[index].amountCents + Apply(splits[index], e).amountCents
  {
    var x, y := splits[index], Apply(splits[index], e);
    var a, b := splits[..index], splits[index + 1..];
    assert splits == a + [x] + b;
    assert splits[index := y] == a + [y] + b;
    SumOfAppend(a + [x], b, AmountOf);
    SumOfAppend(a + [y], b, AmountOf);
    SumOfSnoc(a, x, AmountOf);
    SumOfSnoc(a, y, AmountOf);
  }

  // ---------------------------------------------------------------------
  // The editor

  class SplitEditor {
    var splits: seq<Split>

    /** There is always at least one row. */
    predicate Valid()
      reads this
    {
      |splits| >= 1
    }

    /** The form opens with one empty row, which cannot be submitted. */
    constructor ()
      ensures splits == [EmptySplit]
      ensures Valid()
      ensures forall total :: !IsValid(total, splits)
    {
      splits := [EmptySplit];
      assert !Complete(EmptySplit);
    }

    /** addSplit: one empty row is appended; the others stay as they were. */
    method AddSplit()
      modifies this
      ensures splits == old(splits) + [EmptySplit]
      ensures old(Valid()) ==> Valid()
    {
      splits := splits + [EmptySplit];
    }

    /** removeSplit: the row goes only when it is not the last one left. */
    method RemoveSplit(index: int)
      modifies this
      ensures splits == if |old(splits)| > 1 then WithoutIndex(old(splits), index) else old(splits)
      ensures old(Valid()) ==> Valid()
    {
      if |splits| > 1 {
        splits := WithoutIndex(splits, index);
      }
    }

    /** updateSplit: a copy of the list with one field of one row replaced. */
    method UpdateSplit(index: int, e: SplitEdit)
      requires 0 <= index < |splits|
      modifies this
      ensures splits == old(splits)[index := Apply(old(splits)[index], e)]
      ensures old(Valid()) ==> Valid()
    {
      var current := splits;
      var newSplits := new Split[|current|](i requires 0 <= i < |current| => current[i]);
      newSplits[index] := Apply(newSplits[index], e);
      splits := newSplits[..];
    }
  }
}
