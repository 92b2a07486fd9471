/** The sales page: the sales list with its create, edit and delete forms,
    the product picker and the notice shown when the backend refuses a sale. */
module Sales {
  import opened Js
  import opened Wrappers
  import opened RecordList
  import Models
  import Serializers

  /** The keys a sale is posted with, on create and on update alike. */
  const SALE_FIELDS: set<string> := {"product", "quantity", "price_per_unit"}

  /** The empty new-sale form. */
  const EMPTY_SALE: Record := map["product" := Str(""), "quantity" := Str(""), "price_per_unit" := Str("")]

  const CREATE_FAILED := "Failed to record sale"
  const UPDATE_FAILED := "Failed to update sale"
  const CREATED_NOTICE := "✅ Sale recorded successfully"
  const UPDATED_NOTICE := "✅ Sale updated"
  const OUT_OF_STOCK_MARK := "— Out of Stock"

  /** `{ product, quantity, price_per_unit }` taken from a form. */
  function SalePayload(form: Record): (payload: Record)
    ensures payload.Keys == SALE_FIELDS
    ensures forall k :: k in SALE_FIELDS ==> Get(payload, k) == Get(form, k)
  {
    Pick(form, SALE_FIELDS)
  }

  /** The notice of a refused sale: the body's `quantity` entry as text when
      it is truthy, otherwise the fallback, after a cross mark. */
  function ErrorNotice(body: Body, fallback: string): (notice: string)
    ensures Truthy(body.Field("quantity")) ==> notice == "❌ " + ToText(body.Field("quantity"))
    ensures !Truthy(body.Field("quantity")) ==> notice == "❌ " + fallback
  {
    var quantity := body.Field("quantity");
    "❌ " + ToText(if Truthy(quantity) then quantity else Str(fallback))
  }

  /** Whatever the backend's reason for refusing a sale, the page shows it:
      the one `quantity` message (not enough stock, or a negative quantity). */
  lemma RefusedSaleNotice(d: Serializers.SaleData, fallback: string)
    requires Serializers.ValidateSale(d).Rejected?
    ensures var errors := Serializers.ValidateSale(d).errors;
            ErrorNotice(JsonObject(Serializers.ErrorJson(errors)), fallback) == "❌ " + errors[0].1[0]
    ensures 0 <= d.quantity ==>
            ErrorNotice(JsonObject(Serializers.ErrorJson(Serializers.ValidateSale(d).errors)), fallback)
            == "❌ " + Serializers.InsufficientStockMessage(d.product)
  {
    var errors := Serializers.ValidateSale(d).errors;
    var entries := Serializers.ErrorJson(errors);
    assert entries[0].1 == Arr(Strs(errors[0].1));
    assert Strs(errors[0].1) == [Str(errors[0].1[0])];
    assert JsonObject(entries).Field("quantity") == Arr([Str(errors[0].1[0])]);
    assert ToText(Arr([Str(errors[0].1[0])])) == JoinItems([Str(errors[0].1[0])], ",") == errors[0].1[0];
  }

  /** One entry of the product picker. */
  datatype ProductOption = ProductOption(value: Value, disabled: bool, caption: string)

  /** The picker entry of a product: disabled and marked exactly when its
      quantity is strictly 0. */
  function OptionOf(p: Record): (o: ProductOption)
    ensures o.value == Id(p)
    ensures o.disabled <==> StrictEquals(Get(p, "quantity"), Num(0))
    ensures o.caption == Render(Get(p, "name")) + " " + (if o.disabled then OUT_OF_STOCK_MARK else "")
  {
    var empty := StrictEquals(Get(p, "quantity"), Num(0));
    ProductOption(Id(p), empty, Render(Get(p, "name")) + " " + (if empty then OUT_OF_STOCK_MARK else ""))
  }

  /** `renderProductOptions`: one entry per product, in list order. */
  function ProductOptions(products: seq<Record>): (options: seq<ProductOption>)
    ensures |options| == |products|
    ensures forall i :: 0 <= i < |products| ==> options[i] == OptionOf(products[i])
  {
    seq(|products|, i requires 0 <= i < |products| => OptionOf(products[i]))
  }

  /** A product the backend sends is disabled in the picker exactly when it
      has no stock, and the backend would accept no positive sale of it then. */
  lemma DisabledOptionOfServedProduct(row: Models.ProductRow, quantity: int, pricePerUnit: int)
    ensures OptionOf(Serializers.ProductJson(row)).disabled <==> row.quantity == 0
    ensures row.quantity == 0 && quantity > 0 ==>
            Serializers.ValidateSale(Serializers.SaleData(row, quantity, pricePerUnit)).Rejected?
  {
  }

  class SalesPage {
    var sales: seq<Record>
    var products: seq<Record>
    var newSale: Record
    var editSale: Option<Record>

    constructor ()
      ensures sales == [] && products == [] && newSale == EMPTY_SALE && editSale == None
    {
      sales := [];
      products := [];
      newSale := EMPTY_SALE;
      editSale := None;
    }

    /** `fetchSales`. */
    method FetchSales(reply: ListReply)
      modifies this`sales
      ensures sales == if reply.Loaded? then reply.records else old(sales)
    {
      if reply.Loaded? {
        sales := reply.records;
      }
    }

    /** `fetchProducts`. */
    method FetchProducts(reply: ListReply)
      modifies this`products
      ensures products == if reply.Loaded? then reply.records else old(products)
    {
      if reply.Loaded? {
        products := reply.records;
      }
    }

    /** `handleInputChange`: edits go to the sale being edited, if any, else to the new sale. */
    method HandleInputChange(name: string, value: string)
      modifies this`newSale, this`editSale
      ensures old(editSale).Some? ==>
        editSale == Some(With(old(editSale).value, name, Str(value))) && newSale == old(newSale)
      ensures old(editSale).None? ==>
        editSale == None && newSale == With(old(newSale), name, Str(value))
    {
      if editSale.Some? {
        editSale := Some(editSale.value[name := Str(value)]);
      } else {
        newSale := newSale[name := Str(value)];
      }
    }

    /** `handleCreateSale`: three fields are posted; the created sale is
        appended and the form emptied; a refusal changes nothing and shows
        the backend's reason. */
    method HandleCreateSale(reply: Reply) returns (payload: Record, notice: string)
      modifies this`sales, this`newSale
      ensures payload == SalePayload(old(newSale))
      ensures reply.Success? ==> sales == old(sales) + [reply.data] && newSale == EMPTY_SALE && notice == CREATED_NOTICE
      ensures reply.Failure? ==>
        sales == old(sales) && newSale == old(newSale) && notice == ErrorNotice(reply.body, CREATE_FAILED)
    {
      payload := Pick(newSale, SALE_FIELDS);
      match reply {
        case Success(data) =>
          sales := sales + [data];
          newSale := EMPTY_SALE;
          notice := CREATED_NOTICE;
        case Failure(body) =>
          notice := ErrorNotice(body, CREATE_FAILED);
      }
    }

    /** `handleEdit`: the sale goes into the edit form with its time
        rewritten, `soldAt` being that time as ISO text to the minute. */
    method HandleEdit(sale: Record, soldAt: string)
      modifies this`editSale
      ensures editSale == Some(With(sale, "sold_at", Str(soldAt)))
    {
      editSale := Some(sale["sold_at" := Str(soldAt)]);
    }

    /** `handleUpdateSale`, reachable only from the edit form. */
    method HandleUpdateSale(reply: Reply) returns (payload: Record, notice: string)
      requires editSale.Some?
      modifies this`sales, this`editSale
      ensures payload == SalePayload(old(editSale).value)
      ensures reply.Success? ==>
        sales == ReplaceById(old(sales), Id(old(editSale).value), reply.data) && editSale == None && notice == UPDATED_NOTICE
      ensures reply.Failure? ==>
        sales == old(sales) && editSale == old(editSale) && notice == ErrorNotice(reply.body, UPDATE_FAILED)
    {
      payload := Pick(editSale.value, SALE_FIELDS);
      match reply {
        case Success(data) =>
          sales := ReplaceById(sales, Id(editSale.value), data);
          editSale := None;
          notice := UPDATED_NOTICE;
        case Failure(body) =>
          notice := ErrorNotice(body, UPDATE_FAILED);
      }
    }

    /** `handleDelete`. */
    method HandleDelete(id: Value, deleted: bool)
      modifies this`sales
      ensures sales == if deleted then RemoveById(old(sales), id) else old(sales)
    {
      if deleted {
        sales := RemoveById(sales, id);
      }
    }
  }
}
