/** Request validation of the paycheck API: the field bounds of the
    paycheck, allocation and instance bodies and the validator that keeps
    a new paycheck's allocations within its net amount. A body is checked
    field by field in declaration order and every failing field is
    reported; a field-level validator only runs once the field's own items
    are valid, and it sees only the fields before it that passed. */
module PaycheckSchema {
  import opened Common
  import opened Calendar

  datatype Frequency = Weekly | Biweekly | Semimonthly | Monthly | Custom

  /** One allocation of a request body, after validation. */
  datatype AllocationInput = AllocationInput(categoryId: int, amountCents: int, order: int)

  /** One allocation as sent, before validation: `order` may be missing. */
  datatype RawAllocation = RawAllocation(categoryId: int, amountCents: int, order: Option<int>)

  /** A paycheck creation body as sent; `net` is missing when absent. */
  datatype RawPaycheck = RawPaycheck(name: string, net: Option<int>, frequency: Frequency,
                                     payDate: Date, isActive: bool, allocations: seq<RawAllocation>)

  const MaxNameLength := 255

  function AllocationAmount(a: AllocationInput): int { a.amountCents }

  /** Total of the allocation amounts. */
  function AllocationTotal(allocs: seq<AllocationInput>): int
  {
    SumOf(allocs, AllocationAmount)
  }

  /** An allocation item: the amount must be zero or more and a missing
      order is 0. */
  function ParseAllocation(a: RawAllocation): (r: Result<AllocationInput>)
    ensures r.Ok? <==> a.amountCents >= 0
    ensures r.Ok? ==> r.value.categoryId == a.categoryId && r.value.amountCents == a.amountCents
                      && r.value.order == (if a.order.Some? then a.order.value else 0)
  {
    if a.amountCents < 0 then Err(Invalid("amount_cents"))
    else Ok(AllocationInput(a.categoryId, a.amountCents, if a.order.Some? then a.order.value else 0))
  }

  predicate AllocationsWellFormed(allocs: seq<RawAllocation>)
  {
    forall i :: 0 <= i < |allocs| ==> allocs[i].amountCents >= 0
  }

  function ParsedAllocations(allocs: seq<RawAllocation>): (r: seq<AllocationInput>)
    requires AllocationsWellFormed(allocs)
    ensures |r| == |allocs|
    ensures forall i :: 0 <= i < |allocs| ==> ParseAllocation(allocs[i]) == Ok(r[i])
  {
    seq(|allocs|, i requires 0 <= i < |allocs| => ParseAllocation(allocs[i]).value)
  }

  predicate NameValid(name: string)
  {
    1 <= |name| <= MaxNameLength
  }

  /** The fields of a paycheck creation body that fail, in field order.
      A body is accepted exactly when the name has 1 to 255 characters,
      the net amount is present and not negative, every allocation amount
      is not negative and the allocations add up to at most the net amount
      (equality included). */
  function PaycheckCreateErrors(p: RawPaycheck): (errors: seq<string>)
    ensures errors == [] <==>
      (NameValid(p.name) && p.net.Some? && p.net.value >= 0 && AllocationsWellFormed(p.allocations)
       && AllocationTotal(ParsedAllocations(p.allocations)) <= p.net.value)
  {
    (if NameValid(p.name) then [] else ["name"])
    + (if p.net.Some? && p.net.value >= 0 then [] else ["net_amount_cents"])
    + (if !AllocationsWellFormed(p.allocations) then ["allocations"]
       else if p.net.Some? && p.net.value >= 0
               && AllocationTotal(ParsedAllocations(p.allocations)) > p.net.value then ["allocations"]
       else [])
  }

  /** The total is only compared against a net amount that passed its own
      check: with the net amount missing or negative, well-formed
      allocations of any total raise no allocation error. */
  lemma TotalSkippedWithoutNet(p: RawPaycheck)
    requires !(p.net.Some? && p.net.value >= 0) && AllocationsWellFormed(p.allocations)
    ensures "allocations" !in PaycheckCreateErrors(p)
    ensures "net_amount_cents" in PaycheckCreateErrors(p)
  {
    var e := PaycheckCreateErrors(p);
    assert e == (if NameValid(p.name) then [] else ["name"]) + ["net_amount_cents"];
  }

  /** An instance body: the amount must be zero or more and every
      allocation item must be valid; unlike a paycheck, an instance may
      carry allocations above its own amount. */
  function InstanceCreateErrors(amountCents: int, allocs: seq<RawAllocation>): (errors: seq<string>)
    ensures errors == [] <==> amountCents >= 0 && AllocationsWellFormed(allocs)
  {
    (if amountCents >= 0 then [] else ["amount_cents"])
    + (if AllocationsWellFormed(allocs) then [] else ["allocations"])
  }

  /** Sum of the raw amounts, the same as the parsed total. */
  lemma {:induction false} ParsedTotal(allocs: seq<RawAllocation>)
    requires AllocationsWellFormed(allocs)
    ensures AllocationTotal(ParsedAllocations(allocs)) == SumOf(allocs, (a: RawAllocation) => a.amountCents)
    ensures AllocationTotal(ParsedAllocations(allocs)) >= 0
  {
    if allocs != [] {
      var init := allocs[..|allocs| - 1];
      ParsedTotal(init);
      assert ParsedAllocations(allocs)[..|allocs| - 1] == ParsedAllocations(init);
    }
  }
}
