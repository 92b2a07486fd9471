/** The purchases page: the purchase list with its create, edit and delete
    forms, and each row's total cost. */
module Purchases {
  import opened Js
  import opened Wrappers
  import opened RecordList
  import opened Text
  import Models
  import Serializers

  /** The keys a purchase is posted with, on create and on update alike. */
  const PURCHASE_FIELDS: set<string> := {"product", "quantity", "price_per_unit"}

  /** The empty new-purchase form. */
  const EMPTY_PURCHASE: Record := map["product" := Str(""), "quantity" := Str(""), "price_per_unit" := Str("")]

  /** `{ product, quantity, price_per_unit }` taken from a form. */
  function PurchasePayload(form: Record): (payload: Record)
    ensures payload.Keys == PURCHASE_FIELDS
    ensures forall k :: k in PURCHASE_FIELDS ==> Get(payload, k) == Get(form, k)
  {
    Pick(form, PURCHASE_FIELDS)
  }

  /** The total-cost cell of a row, `purchase.quantity * purchase.price_per_unit`,
      in cents: the served quantity times the served price text read as a
      number. `None` stands for `NaN`, when either is not a number. */
  function RowTotalCost(purchase: Record): Option<int> {
    match (Get(purchase, "quantity"), Get(purchase, "price_per_unit"))
    case (Num(q), Str(t)) =>
      (match CentsOfText(t)
       case Some(c) => Some(q * c)
       case None => None)
    case _ => None
  }

  /** For every purchase the backend stores, the page's total-cost cell shows
      the amount `Purchase.save()` computed, and the served `amount` text reads
      back as that same amount. */
  lemma RowTotalIsStoredAmount(productId: int, quantity: nat, pricePerUnit: int)
    ensures var row := Models.SavedPurchase(productId, quantity, pricePerUnit);
            && RowTotalCost(Serializers.PurchaseJson(row)) == Some(row.amount)
            && CentsOfText(Get(Serializers.PurchaseJson(row), "amount").s) == Some(row.amount)
  {
    var row := Models.SavedPurchase(productId, quantity, pricePerUnit);
    CentsTextRoundTrip(pricePerUnit);
    CentsTextRoundTrip(row.amount);
  }

  class PurchasesPage {
    var purchases: seq<Record>
    var products: seq<Record>
    var newPurchase: Record
    var editPurchase: Option<Record>

    constructor ()
      ensures purchases == [] && products == [] && newPurchase == EMPTY_PURCHASE && editPurchase == None
    {
      purchases := [];
      products := [];
      newPurchase := EMPTY_PURCHASE;
      editPurchase := None;
    }

    /** `fetchPurchases`. */
    method FetchPurchases(reply: ListReply)
      modifies this`purchases
      ensures purchases == if reply.Loaded? then reply.records else old(purchases)
    {
      if reply.Loaded? {
        purchases := reply.records;
      }
    }

    /** `fetchProducts`. */
    method FetchProducts(reply: ListReply)
      modifies this`products
      ensures products == if reply.Loaded? then reply.records else old(products)
    {
      if reply.Loaded? {
        products := reply.records;
      }
    }

    /** `handleInputChange`: edits go to the purchase being edited, if any,
        else to the new purchase. */
    method HandleInputChange(name: string, value: string)
      modifies this`newPurchase, this`editPurchase
      ensures old(editPurchase).Some? ==>
        editPurchase == Some(With(old(editPurchase).value, name, Str(value))) && newPurchase == old(newPurchase)
      ensures old(editPurchase).None? ==>
        editPurchase == None && newPurchase == With(old(newPurchase), name, Str(value))
    {
      if editPurchase.Some? {
        editPurchase := Some(editPurchase.value[name := Str(value)]);
      } else {
        newPurchase := newPurchase[name := Str(value)];
      }
    }

    /** `handleCreatePurchase`: three fields are posted; the created purchase
        is appended and the form emptied; a refusal changes nothing. */
    method HandleCreatePurchase(reply: Reply) returns (payload: Record)
      modifies this`purchases, this`newPurchase
      ensures payload == PurchasePayload(old(newPurchase))
      ensures reply.Success? ==> purchases == old(purchases) + [reply.data] && newPurchase == EMPTY_PURCHASE
      ensures reply.Failure? ==> purchases == old(purchases) && newPurchase == old(newPurchase)
    {
      payload := Pick(newPurchase, PURCHASE_FIELDS);
      if reply.Success? {
        purchases := purchases + [reply.data];
        newPurchase := EMPTY_PURCHASE;
      }
    }

    /** `handleEdit`: the purchase goes into the edit form with its time
        rewritten, `purchasedAt` being that time as ISO text to the minute. */
    method HandleEdit(purchase: Record, purchasedAt: string)
      modifies this`editPurchase
      ensures editPurchase == Some(With(purchase, "purchased_at", Str(purchasedAt)))
    {
      editPurchase := Some(purchase["purchased_at" := Str(purchasedAt)]);
    }

    /** `handleUpdatePurchase`, reachable only from the edit form. */
    method HandleUpdatePurchase(reply: Reply) returns (payload: Record)
      requires editPurchase.Some?
      modifies this`purchases, this`editPurchase
      ensures payload == PurchasePayload(old(editPurchase).value)
      ensures reply.Success? ==>
        purchases == ReplaceById(old(purchases), Id(old(editPurchase).value), reply.data) && editPurchase == None
      ensures reply.Failure? ==> purchases == old(purchases) && editPurchase == old(editPurchase)
    {
      payload := Pick(editPurchase.value, PURCHASE_FIELDS);
      if reply.Success? {
        purchases := ReplaceById(purchases, Id(editPurchase.value), reply.data);
        editPurchase := None;
      }
    }

    /** `handleDelete`. */
    method HandleDelete(id: Value, deleted: bool)
      modifies this`purchases
      ensures purchases == if deleted then RemoveById(old(purchases), id) else old(purchases)
    {
      if deleted {
        purchases := RemoveById(purchases, id);
      }
    }
  }
}
