/** The bill controller of `backend/controllers/billingController.js`: creating a bill with
    its total, listing bills newest first, and marking a bill paid. Amounts are integers. */
module Billing {
  import opened Common
  import opened Listing

  /** A bill line; a missing or zero amount is JavaScript-falsy and counts as 0. */
  datatype Item = Item(description: string, amount: Option<int>)

  datatype Bill = Bill(
    id: Id,
    userId: Id,
    docId: Option<Id>,
    appointmentId: Option<Id>,
    billType: string,
    items: seq<Item>,
    total: int,
    paid: bool,
    currency: string,
    createdAt: int)

  /** The body of `createBill`; `items` is `None` when it is not an array. */
  datatype BillRequest = BillRequest(
    userId: Option<Id>,
    docId: Option<Id>,
    appointmentId: Option<Id>,
    billType: Option<string>,
    items: Option<seq<Item>>,
    currency: Option<string>)

  const MissingFields := Failure(400, "Missing required fields")

  /** `Number(it.amount || 0)`. */
  function AmountOf(it: Item): int {
    if it.amount.Some? then it.amount.value else 0
  }

  /** `items.reduce((s, it) => s + Number(it.amount || 0), 0)`, folding from the left. */
  function Total(items: seq<Item>): int {
    if items == [] then 0 else Total(items[..|items| - 1]) + AmountOf(items[|items| - 1])
  }

  /** The total of two item lists put together is the sum of their totals. */
  lemma {:induction false} TotalAppend(a: seq<Item>, b: seq<Item>)
    ensures Total(a + b) == Total(a) + Total(b)
    decreases |b|
  {
    if b == [] {
      assert a + b == a;
    } else {
      var c := a + b;
      assert c[..|c| - 1] == a + b[..|b| - 1];
      assert c[|c| - 1] == b[|b| - 1];
      TotalAppend(a, b[..|b| - 1]);
    }
  }

  /** A one-item list totals that item's amount, a missing amount as 0. */
  lemma TotalSingle(it: Item)
    ensures Total([it]) == if it.amount.Some? then it.amount.value else 0
  {
    assert [it][..0] == [];
  }

  /** An item without an amount leaves the total unchanged, wherever it stands. */
  lemma MissingAmountAddsNothing(before: seq<Item>, after: seq<Item>, description: string)
    ensures Total(before + [Item(description, None)] + after) == Total(before + after)
  {
    TotalAppend(before + [Item(description, None)], after);
    TotalAppend(before, [Item(description, None)]);
    TotalSingle(Item(description, None));
    TotalAppend(before, after);
  }

  /** Non-negative amounts give a non-negative total no smaller than any one amount. */
  lemma {:induction false} TotalBounds(items: seq<Item>)
    requires forall i :: 0 <= i < |items| ==> AmountOf(items[i]) >= 0
    ensures Total(items) >= 0
    ensures forall i :: 0 <= i < |items| ==> Total(items) >= AmountOf(items[i])
  {
    if items != [] {
      var init := items[..|items| - 1];
      TotalBounds(init);
      assert forall i :: 0 <= i < |init| ==> init[i] == items[i];
    }
  }

  /** The validation of `createBill`: a user, a type and a non-empty item array. */
  predicate BillComplete(req: BillRequest) {
    req.userId.Some? && Given(req.billType) && req.items.Some? && req.items.value != []
  }

  /** The bill `createBill` stores: the computed total, unpaid, currency `INR` unless given. */
  function NewBill(id: Id, req: BillRequest, now: int): (b: Bill)
    requires BillComplete(req)
    ensures b.total == Total(req.items.value) && !b.paid && b.items == req.items.value
    ensures b.currency == if Given(req.currency) then req.currency.value else "INR"
    ensures b.userId == req.userId.value && b.billType == req.billType.value && b.id == id && b.createdAt == now
  {
    Bill(id, req.userId.value, req.docId, req.appointmentId, req.billType.value, req.items.value,
         Total(req.items.value), false, if Given(req.currency) then req.currency.value else "INR", now)
  }

  /** `.sort({ createdAt: -1 })`. */
  function NewestFirst(b: Bill): int {
    -b.createdAt
  }

  predicate ForUser(userId: Option<Id>, b: Bill) {
    userId.Some? ==> b.userId == userId.value
  }

  function UserFilter(userId: Option<Id>): Bill -> bool {
    b => ForUser(userId, b)
  }

  /** `listBills`: filtered by `userId` only when one is given, newest first. */
  function ListBills(bills: seq<Bill>, userId: Option<Id>): (r: seq<Bill>)
    ensures SortedBy(r, NewestFirst)
    ensures forall b :: b in r <==> b in bills && (userId.Some? ==> b.userId == userId.value)
    ensures multiset(r) == multiset(Filter(bills, UserFilter(userId)))
    ensures userId.None? ==> multiset(r) == multiset(bills)
  {
    var mine := Filter(bills, UserFilter(userId));
    SortByMembers(mine, NewestFirst);
    if userId.None? then FilterAll(bills, UserFilter(userId)); SortBy(mine, NewestFirst)
    else SortBy(mine, NewestFirst)
  }

  /** The billing collection. Bill ids are positions in `bills`. */
  class BillStore {
    var bills: seq<Bill>

    ghost predicate Valid()
      reads this
    {
      forall i :: 0 <= i < |bills| ==> bills[i].id == i && bills[i].total == Total(bills[i].items)
    }

    constructor ()
      ensures Valid() && bills == []
    {
      bills := [];
    }

    /** `createBill`; `now` is the creation time. */
    method CreateBill(req: BillRequest, now: int) returns (r: Outcome<Bill>)
      requires Valid()
      modifies this
      ensures Valid()
      ensures !BillComplete(req) ==> r == Fail(MissingFields) && bills == old(bills)
      ensures BillComplete(req) ==> r == Ok(NewBill(|old(bills)|, req, now)) && bills == old(bills) + [r.value]
    {
      if !BillComplete(req) {
        return Fail(MissingFields);
      }
      var bill := NewBill(|bills|, req, now);
      bills := bills + [bill];
      r := Ok(bill);
    }

    /** `markPaid`: sets only `paid`; an unknown id changes nothing and still succeeds. */
    method MarkPaid(billId: Id) returns (r: Outcome<()>)
      requires Valid()
      modifies this
      ensures Valid()
      ensures r == Ok(())
      ensures billId < |old(bills)| ==> bills == old(bills)[billId := old(bills)[billId].(paid := true)]
      ensures billId >= |old(bills)| ==> bills == old(bills)
      ensures billId < |old(bills)| && old(bills)[billId].paid ==> bills == old(bills)
    {
      if billId < |bills| {
        bills := bills[billId := bills[billId].(paid := true)];
      }
      r := Ok(());
    }
  }
}
