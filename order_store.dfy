/**
 * An in-memory stand-in for the MongoDB `orders` collection: a sequence of
 * documents in insertion order, the unique index on `orderNumber`, schema
 * validation on save, and the `findOne` / `findById` lookups the controller uses.
 */
module OrderStore {
  import opened Wrappers
  import opened OrderModel

  /** The three lookup queries of the controller. */
  datatype Selector =
    | ById(id: nat)                                      // findById(orderId)
    | ByIdAndOwner(id: nat, owner: string)               // findOne({ _id, userId })
    | ByNumberAndOwner(orderNumber: string, owner: string) // findOne({ orderNumber, userId })

  predicate Selects(sel: Selector, o: Order)
  {
    match sel
    case ById(id) => o.id == id
    case ByIdAndOwner(id, owner) => o.id == id && o.userId == owner
    case ByNumberAndOwner(n, owner) => o.orderNumber == n && o.userId == owner
  }

  /** The position of the first document the selector matches, if any. */
  function Find(orders: seq<Order>, sel: Selector): (r: Option<nat>)
    ensures r.Some? ==> r.value < |orders| && Selects(sel, orders[r.value])
    ensures r.Some? ==> forall j :: 0 <= j < r.value ==> !Selects(sel, orders[j])
    ensures r.None? <==> forall j :: 0 <= j < |orders| ==> !Selects(sel, orders[j])
  {
    if orders == [] then None
    else if Selects(sel, orders[0]) then Some(0)
    else match Find(orders[1..], sel)
      case None => None
      case Some(i) => Some(i + 1)
  }

  predicate NumberTaken(orders: seq<Order>, number: string)
  {
    exists i :: 0 <= i < |orders| && orders[i].orderNumber == number
  }

  /**
   * What the collection guarantees of its documents: each passed validation and
   * carries an order number, ids are below the id counter, and ids and order
   * numbers (the unique index) are pairwise distinct.
   */
  ghost predicate StoreInvariant(orders: seq<Order>, nextId: nat)
  {
    (forall i :: 0 <= i < |orders| ==>
       orders[i].id < nextId && orders[i].orderNumber != "" && SchemaValid(orders[i])) &&
    (forall i, j :: 0 <= i < j < |orders| ==>
       orders[i].id != orders[j].id && orders[i].orderNumber != orders[j].orderNumber)
  }

  datatype StoreError = ValidationError | DuplicateKey(orderNumber: string)

  datatype SaveResult = Saved(order: Order) | SaveFailed(error: StoreError)

  /** The `error.message` a failed save raises (abbreviated to its leading words). */
  function ErrorMessage(e: StoreError): string
  {
    match e
    case ValidationError => "Order validation failed"
    case DuplicateKey(n) => "E11000 duplicate key error collection: orders index: orderNumber_1 dup key: { orderNumber: \"" + n + "\" }"
  }

  /**
   * `document.save()` of a new document: validation runs first (Mongoose
   * validates before the schema's own pre-save hooks), then the pre-save hook,
   * then the insert, which the unique index on `orderNumber`
   * refuses for a number already present. There is no retry. A saved document
   * gets the next id and `createdAt == now`.
   */
  function SaveOutcome(orders: seq<Order>, nextId: nat, draft: Order, now: nat, rand: nat): (r: SaveResult)
    ensures r.Saved? <==>
      SchemaValid(draft) && !NumberTaken(orders, WithOrderNumber(draft, now, rand).orderNumber)
    ensures !SchemaValid(draft) ==> r == SaveFailed(ValidationError)
    ensures r.SaveFailed? && SchemaValid(draft) ==>
      r.error == DuplicateKey(WithOrderNumber(draft, now, rand).orderNumber)
    ensures r.Saved? ==> r.order.id == nextId && r.order.createdAt == now
    ensures r.Saved? ==> r.order.(id := draft.id, createdAt := draft.createdAt) == WithOrderNumber(draft, now, rand)
  {
    if !SchemaValid(draft) then SaveFailed(ValidationError)
    else
    var d := WithOrderNumber(draft, now, rand);
    if NumberTaken(orders, d.orderNumber) then SaveFailed(DuplicateKey(d.orderNumber))
    else Saved(d.(id := nextId, createdAt := now))
  }

  function AfterSave(orders: seq<Order>, r: SaveResult): seq<Order>
  {
    if r.Saved? then orders + [r.order] else orders
  }

  function IdAfterSave(nextId: nat, r: SaveResult): nat
  {
    if r.Saved? then nextId + 1 else nextId
  }

  lemma SaveKeepsInvariant(orders: seq<Order>, nextId: nat, draft: Order, now: nat, rand: nat)
    requires StoreInvariant(orders, nextId)
    ensures var r := SaveOutcome(orders, nextId, draft, now, rand);
      StoreInvariant(AfterSave(orders, r), IdAfterSave(nextId, r))
  {
    var r := SaveOutcome(orders, nextId, draft, now, rand);
    if r.Saved? {
      var s := orders + [r.order];
      forall i, j | 0 <= i < j < |s|
        ensures s[i].id != s[j].id && s[i].orderNumber != s[j].orderNumber
      {
        if j == |orders| {
          assert !NumberTaken(orders, r.order.orderNumber);
          assert orders[i].orderNumber != r.order.orderNumber;
        }
      }
    }
  }

  /** Re-saving a stored document whose only change is `status`. */
  lemma StatusChangeKeepsInvariant(orders: seq<Order>, nextId: nat, i: nat, s: Status)
    requires StoreInvariant(orders, nextId) && i < |orders|
    ensures StoreInvariant(orders[i := orders[i].(status := s)], nextId)
  {
    var o := orders[i].(status := s);
    assert SchemaValid(o) by {
      assert o.items == orders[i].items && o.userId == orders[i].userId;
    }
  }

  class Store {
    var orders: seq<Order>
    var nextId: nat

    ghost predicate Valid()
      reads this
    {
      StoreInvariant(orders, nextId)
    }

    constructor ()
      ensures Valid() && orders == [] && nextId == 0
    {
      orders := [];
      nextId := 0;
    }

    /** `await order.save()` on a new document. */
    method Save(doc: OrderDocument, now: nat, rand: nat) returns (r: SaveResult)
      requires Valid()
      modifies this, doc
      ensures Valid()
      ensures r == SaveOutcome(old(orders), old(nextId), old(doc.data), now, rand)
      ensures orders == AfterSave(old(orders), r)
      ensures nextId == IdAfterSave(old(nextId), r)
      ensures doc.data == if r.Saved? then r.order
                          else if r.error.ValidationError? then old(doc.data)
                          else WithOrderNumber(old(doc.data), now, rand)
    {
      SaveKeepsInvariant(orders, nextId, doc.data, now, rand);
      if !SchemaValid(doc.data) {
        return SaveFailed(ValidationError);
      }
      doc.PreSave(now, rand);
      if NumberTaken(orders, doc.data.orderNumber) {
        r := SaveFailed(DuplicateKey(doc.data.orderNumber));
      } else {
        doc.data := doc.data.(id := nextId, createdAt := now);
        r := Saved(doc.data);
        orders := orders + [doc.data];
        nextId := nextId + 1;
      }
    }

    /**
     * `order.status = s; await order.save()` on the document at position i. The
     * hook leaves its order number alone, validation still passes and the unique
     * index is unaffected, so the save always succeeds.
     */
    method SetStatus(i: nat, s: Status)
      requires Valid() && i < |orders|
      modifies this
      ensures Valid()
      ensures orders == old(orders)[i := old(orders)[i].(status := s)]
      ensures nextId == old(nextId)
    {
      StatusChangeKeepsInvariant(orders, nextId, i, s);
      orders := orders[i := orders[i].(status := s)];
    }
  }
}
