/** The products page: the product list with its create, edit and delete
    forms, a search box, and the stock badge of each row. */
module Products {
  import opened Text
  import opened Js
  import opened Wrappers
  import opened RecordList
  import Models
  import Serializers

  /** The empty new-product form. */
  const EMPTY_PRODUCT: Record := map[
    "name" := Str(""), "description" := Str(""), "category" := Str(""),
    "quantity" := Num(0), "buying_price" := Str(""), "selling_price" := Str("")]

  /** What the quantity column shows for a product. */
  datatype QuantityStatus = OutOfStock | LowStock(quantity: Value) | InStock(quantity: Value)

  /** `renderQuantityStatus`: out of stock when the quantity is exactly 0,
      otherwise low on stock when the `low_stock` flag is truthy, otherwise
      the quantity itself. */
  function QuantityStatusOf(p: Record): (s: QuantityStatus)
    ensures s.OutOfStock? <==> StrictEquals(Get(p, "quantity"), Num(0))
    ensures s.LowStock? <==> !StrictEquals(Get(p, "quantity"), Num(0)) && Truthy(Get(p, "low_stock"))
    ensures !s.OutOfStock? ==> s.quantity == Get(p, "quantity")
  {
    if StrictEquals(Get(p, "quantity"), Num(0)) then OutOfStock
    else if Truthy(Get(p, "low_stock")) then LowStock(Get(p, "quantity"))
    else InStock(Get(p, "quantity"))
  }

  /** For a product as the backend sends it the badge follows the stock: out
      of stock at 0, low at 1 to 5 and also below 0, plain above 5. */
  lemma StatusOfServedProduct(row: Models.ProductRow)
    ensures QuantityStatusOf(Serializers.ProductJson(row)) ==
      if row.quantity == 0 then OutOfStock
      else if row.quantity <= 5 then LowStock(Num(row.quantity))
      else InStock(Num(row.quantity))
  {
  }

  /** The text fields the search reads; the search fails on a product lacking one. */
  predicate Searchable(p: Record) {
    Get(p, "name").Str? && Get(p, "description").Str? && Get(p, "category").Str?
  }

  /** The lower-cased term occurs in the lower-cased name, description or category. */
  predicate ProductMatches(p: Record, term: string)
    requires Searchable(p)
  {
    Includes(Lower(Get(p, "name").s), Lower(term))
    || Includes(Lower(Get(p, "description").s), Lower(term))
    || Includes(Lower(Get(p, "category").s), Lower(term))
  }

  /** Every product in the list can be searched. */
  predicate AllSearchable(products: seq<Record>) {
    forall i :: 0 <= i < |products| ==> Searchable(products[i])
  }

  /** `filteredProducts`: the matching products, in list order. */
  function FilteredProducts(products: seq<Record>, term: string): (r: seq<Record>)
    requires AllSearchable(products)
    ensures |r| <= |products|
    ensures forall i :: 0 <= i < |r| ==> r[i] in products && ProductMatches(r[i], term)
    ensures forall i :: 0 <= i < |products| && ProductMatches(products[i], term) ==> products[i] in r
  {
    if products == [] then []
    else (if ProductMatches(products[0], term) then [products[0]] else []) + FilteredProducts(products[1..], term)
  }

  /** The filter works product by product: a single product is kept exactly
      when it matches, and filtering a concatenation concatenates the results,
      so order and repetitions are kept. */
  lemma {:induction false} FilteredProductsAppend(a: seq<Record>, b: seq<Record>, term: string)
    requires AllSearchable(a) && AllSearchable(b)
    ensures AllSearchable(a + b)
    ensures FilteredProducts(a + b, term) == FilteredProducts(a, term) + FilteredProducts(b, term)
  {
    if a == [] {
      assert a + b == b;
    } else {
      assert (a + b)[1..] == a[1..] + b;
      assert AllSearchable(a[1..]);
      FilteredProductsAppend(a[1..], b, term);
    }
  }

  /** A single product is kept exactly when it matches. */
  lemma FilteredProductsSingle(x: Record, term: string)
    requires Searchable(x)
    ensures FilteredProducts([x], term) == if ProductMatches(x, term) then [x] else []
  {
    assert [x][1..] == [];
  }

  /** Typing any piece of a product's name, in any case, finds the product. */
  lemma NamePieceFindsProduct(p: Record, i: int, j: int, typed: string)
    requires Searchable(p) && 0 <= i <= j <= |Get(p, "name").s|
    requires Lower(typed) == Lower(Get(p, "name").s[i..j])
    ensures ProductMatches(p, typed)
  {
    var name := Get(p, "name").s;
    assert Lower(name[i..j]) == Lower(name)[i..j];
    assert OccursAt(Lower(name), Lower(typed), i);
    IncludesIffOccurs(Lower(name), Lower(typed));
  }

  /** An empty search shows every product. */
  lemma {:induction false} EmptySearchShowsAll(products: seq<Record>)
    requires AllSearchable(products)
    ensures FilteredProducts(products, "") == products
  {
    if products != [] {
      IncludesEmpty(Lower(Get(products[0], "name").s));
      EmptySearchShowsAll(products[1..]);
    }
  }

  /** The search ignores the case of the term. */
  lemma {:induction false} SearchIgnoresCase(products: seq<Record>, term: string)
    requires AllSearchable(products)
    ensures FilteredProducts(products, Lower(term)) == FilteredProducts(products, term)
  {
    LowerIdempotent(term);
    if products != [] {
      SearchIgnoresCase(products[1..], term);
    }
  }

  /** Every product the backend sends can be searched. */
  lemma ServedProductsAreSearchable(row: Models.ProductRow)
    ensures Searchable(Serializers.ProductJson(row))
  {
  }

  class ProductsPage {
    var products: seq<Record>
    var newProduct: Record
    var editProduct: Option<Record>
    var searchTerm: string

    /** First render: no products, the empty form, nothing being edited. */
    constructor ()
      ensures products == [] && newProduct == EMPTY_PRODUCT && editProduct == None && searchTerm == ""
    {
      products := [];
      newProduct := EMPTY_PRODUCT;
      editProduct := None;
      searchTerm := "";
    }

    /** `fetchProducts`: the list becomes what the server sent; a failure keeps it. */
    method FetchProducts(reply: ListReply)
      modifies this`products
      ensures products == if reply.Loaded? then reply.records else old(products)
    {
      if reply.Loaded? {
        products := reply.records;
      }
    }

    /** `handleInputChange`: the named field of the product being edited, or
        of the new product when none is, takes the typed value. */
    method HandleInputChange(name: string, value: string)
      modifies this`newProduct, this`editProduct
      ensures old(editProduct).Some? ==>
        editProduct == Some(With(old(editProduct).value, name, Str(value))) && newProduct == old(newProduct)
      ensures old(editProduct).None? ==>
        editProduct == None && newProduct == With(old(newProduct), name, Str(value))
    {
      if editProduct.Some? {
        editProduct := Some(editProduct.value[name := Str(value)]);
      } else {
        newProduct := newProduct[name := Str(value)];
      }
    }

    /** `handleCreateProduct`: the whole form is posted; the created product
        is appended and the form emptied; a failure changes nothing. */
    method HandleCreateProduct(reply: Reply) returns (payload: Record)
      modifies this`products, this`newProduct
      ensures payload == old(newProduct)
      ensures reply.Success? ==> products == old(products) + [reply.data] && newProduct == EMPTY_PRODUCT
      ensures reply.Failure? ==> products == old(products) && newProduct == old(newProduct)
    {
      payload := newProduct;
      if reply.Success? {
        products := products + [reply.data];
        newProduct := EMPTY_PRODUCT;
      }
    }

    /** `handleEdit`. */
    method HandleEdit(product: Record)
      modifies this`editProduct
      ensures editProduct == Some(product)
    {
      editProduct := Some(product);
    }

    /** The cancel button of the edit form. */
    method CancelEdit()
      modifies this`editProduct
      ensures editProduct == None
    {
      editProduct := None;
    }

    /** `handleUpdateProduct`, reachable only from the edit form: the edited
        product is sent whole; the products with its id become the server's
        record and editing ends; a failure changes nothing. */
    method HandleUpdateProduct(reply: Reply) returns (payload: Record)
      requires editProduct.Some?
      modifies this`products, this`editProduct
      ensures payload == old(editProduct).value
      ensures reply.Success? ==>
        products == ReplaceById(old(products), Id(old(editProduct).value), reply.data) && editProduct == None
      ensures reply.Failure? ==> products == old(products) && editProduct == old(editProduct)
    {
      payload := editProduct.value;
      if reply.Success? {
        products := ReplaceById(products, Id(editProduct.value), reply.data);
        editProduct := None;
      }
    }

    /** `handleDelete`: on success the products with that id go; otherwise nothing changes. */
    method HandleDelete(id: Value, deleted: bool)
      modifies this`products
      ensures products == if deleted then RemoveById(old(products), id) else old(products)
    {
      if deleted {
        products := RemoveById(products, id);
      }
    }

    /** The search box. */
    method SetSearchTerm(term: string)
      modifies this`searchTerm
      ensures searchTerm == term
    {
      searchTerm := term;
    }
  }
}
