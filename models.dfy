/** The inventory's database records: products, purchases, sales, expenses
    and reports. Money is held in integer cents (a `DecimalField` with two
    decimal places), so all arithmetic on it is exact. */
module Models {
  import opened Wrappers

  /** A user account: the built-in user with two extra flags. */
  datatype UserRow = UserRow(id: int, username: string, email: string, isAdmin: bool, isStaffUser: bool, isActive: bool)

  /** A user created without flags: not an administrator, a staff user, active. */
  function NewUser(id: int, username: string, email: string): (u: UserRow)
    ensures u.id == id && u.username == username && u.email == email
    ensures !u.isAdmin && u.isStaffUser && u.isActive
  {
    UserRow(id, username, email, false, true, true)
  }

  /** A product row as stored in the database. */
  datatype ProductRow = ProductRow(
    id: int,
    name: string,
    description: string,
    quantity: int,        // an unconstrained integer, default 0
    buyingPrice: int,     // cents; the actual cost of one unit
    category: string)

  /** `Product.total_value`: the stock's worth at its buying price. */
  function TotalValue(p: ProductRow): (v: int)
    ensures p.quantity >= 0 && p.buyingPrice >= 0 ==> v >= 0
    ensures p.quantity > 0 && p.buyingPrice > 0 ==> v >= p.buyingPrice
  {
    p.buyingPrice * p.quantity
  }

  /** `price_per_unit * quantity`, the amount of a purchase or sale line. */
  function LineAmount(pricePerUnit: int, quantity: int): (amount: int)
    ensures quantity == 0 ==> amount == 0
    ensures quantity == 1 ==> amount == pricePerUnit
    ensures pricePerUnit >= 0 && quantity >= 0 ==> amount >= 0
  {
    pricePerUnit * quantity
  }

  /** A stock of zero is worth nothing, whatever its price. */
  lemma EmptyStockIsWorthNothing(p: ProductRow)
    requires p.quantity == 0
    ensures TotalValue(p) == 0
  {
  }

  /** Adding `q` units bought at `price` to a product whose buying price
      becomes `price`: the stock's worth grows by exactly the line amount
      when the price did not change. */
  lemma {:induction false} RestockValue(p: ProductRow, q: int, price: int)
    ensures TotalValue(p.(quantity := p.quantity + q, buyingPrice := price))
         == TotalValue(p.(buyingPrice := price)) + LineAmount(price, q)
  {
    assert price * (p.quantity + q) == price * p.quantity + price * q;
  }

  /** `sum([p.total_value for p in products])`. */
  function SumTotalValue(products: seq<ProductRow>): (total: int)
    ensures products == [] ==> total == 0
    ensures |products| == 1 ==> total == TotalValue(products[0])
  {
    if products == [] then 0 else TotalValue(products[0]) + SumTotalValue(products[1..])
  }

  /** The total over two lists of products is the sum of their totals. */
  lemma {:induction false} SumTotalValueAppend(a: seq<ProductRow>, b: seq<ProductRow>)
    ensures SumTotalValue(a + b) == SumTotalValue(a) + SumTotalValue(b)
  {
    if a == [] {
      assert a + b == b;
    } else {
      assert (a + b)[1..] == a[1..] + b;
      SumTotalValueAppend(a[1..], b);
    }
  }

  /** With no negative stock and no negative price the report total is not negative. */
  lemma {:induction false} SumTotalValueNonNegative(products: seq<ProductRow>)
    requires forall i :: 0 <= i < |products| ==> products[i].quantity >= 0 && products[i].buyingPrice >= 0
    ensures SumTotalValue(products) >= 0
  {
    if products != [] {
      SumTotalValueNonNegative(products[1..]);
    }
  }

  /** Changing one product changes the report total by exactly the change in
      that product's worth. */
  lemma {:induction false} SumTotalValueUpdate(products: seq<ProductRow>, i: int, p: ProductRow)
    requires 0 <= i < |products|
    ensures SumTotalValue(products[i := p]) == SumTotalValue(products) - TotalValue(products[i]) + TotalValue(p)
  {
    if i > 0 {
      assert products[i := p][1..] == products[1..][i - 1 := p];
      SumTotalValueUpdate(products[1..], i - 1, p);
    }
  }

  /** A product object: its fields change in place, and `stored` is the row
      its last `save()` wrote. */
  class Product {
    const id: int
    var name: string
    var description: string
    var quantity: int
    var buyingPrice: int
    var category: string
    var stored: ProductRow

    /** The row the object's current fields describe. */
    function Row(): (r: ProductRow)
      reads this
      ensures r.id == id && r.quantity == quantity && r.buyingPrice == buyingPrice
      ensures r.name == name && r.description == description && r.category == category
    {
      ProductRow(id, name, description, quantity, buyingPrice, category)
    }

    /** `Product.objects.create(...)`: quantity defaults to 0, description
        and category may be blank. */
    constructor (id: int, name: string, description: string, buyingPrice: int, category: string)
      ensures Row() == ProductRow(id, name, description, 0, buyingPrice, category)
      ensures stored == Row()
    {
      this.id := id;
      this.name := name;
      this.description := description;
      this.quantity := 0;
      this.buyingPrice := buyingPrice;
      this.category := category;
      this.stored := ProductRow(id, name, description, 0, buyingPrice, category);
    }

    /** `save()`: the stored row becomes the object's fields. */
    method Save()
      modifies this`stored
      ensures stored == Row()
    {
      stored := Row();
    }
  }

  /** A purchase row as stored. */
  datatype PurchaseRow = PurchaseRow(productId: int, quantity: nat, pricePerUnit: int, amount: int)

  /** The row `Purchase.save()` stores for a purchase of `quantity` units of a
      product at `pricePerUnit`: the amount is the line amount. */
  function SavedPurchase(productId: int, quantity: nat, pricePerUnit: int): PurchaseRow {
    PurchaseRow(productId, quantity, pricePerUnit, LineAmount(pricePerUnit, quantity))
  }

  /** A purchase of some units of a product. Its quantity is a positive
      integer field, so it is never negative. */
  class Purchase {
    const product: Product
    var quantity: nat
    var pricePerUnit: int
    var amount: int
    var stored: Option<PurchaseRow>

    function Row(): (r: PurchaseRow)
      reads this
      ensures r.productId == product.id && r.quantity == quantity
      ensures r.pricePerUnit == pricePerUnit && r.amount == amount
    {
      PurchaseRow(product.id, quantity, pricePerUnit, amount)
    }

    /** A new, unsaved purchase; its amount defaults to 0. */
    constructor (product: Product, quantity: nat, pricePerUnit: int)
      ensures this.product == product && this.quantity == quantity && this.pricePerUnit == pricePerUnit
      ensures amount == 0 && stored == None
    {
      this.product := product;
      this.quantity := quantity;
      this.pricePerUnit := pricePerUnit;
      this.amount := 0;
      this.stored := None;
    }

    /** `Purchase.save()`: the amount becomes the line amount; the product's
        buying price becomes the unit price, and the product is saved only
        when its price was different; then the purchase row is stored. */
    method Save()
      modifies this`amount, this`stored, product`buyingPrice, product`stored
      ensures amount == LineAmount(pricePerUnit, quantity)
      ensures product.buyingPrice == pricePerUnit
      ensures old(product.buyingPrice) != pricePerUnit ==> product.stored == product.Row()
      ensures old(product.buyingPrice) == pricePerUnit ==> product.stored == old(product.stored)
      ensures stored == Some(Row()) == Some(SavedPurchase(product.id, quantity, pricePerUnit))
    {
      amount := pricePerUnit * quantity;
      if product.buyingPrice != pricePerUnit {
        product.buyingPrice := pricePerUnit;
        product.Save();
      }
      stored := Some(Row());
    }
  }

  /** A sale row as stored. */
  datatype SaleRow = SaleRow(productId: int, quantity: nat, pricePerUnit: int, amount: int)

  /** A sale of some units of a product at a selling price. The amount has
      no default: it is missing until the first save. */
  class Sale {
    const product: Product
    var quantity: nat
    var pricePerUnit: int
    var amount: Option<int>
    var stored: Option<SaleRow>

    constructor (product: Product, quantity: nat, pricePerUnit: int)
      ensures this.product == product && this.quantity == quantity && this.pricePerUnit == pricePerUnit
      ensures amount == None && stored == None
    {
      this.product := product;
      this.quantity := quantity;
      this.pricePerUnit := pricePerUnit;
      this.amount := None;
      this.stored := None;
    }

    /** `Sale.save()`: the amount becomes the line amount and the row is
        stored; the product is not touched. */
    method Save()
      modifies this`amount, this`stored
      ensures amount == Some(LineAmount(pricePerUnit, quantity))
      ensures stored == Some(SaleRow(product.id, quantity, pricePerUnit, LineAmount(pricePerUnit, quantity)))
      ensures unchanged(product)
    {
      amount := Some(pricePerUnit * quantity);
      stored := Some(SaleRow(product.id, quantity, pricePerUnit, pricePerUnit * quantity));
    }
  }

  /** An expense: what was paid for, and how much (cents). */
  datatype Expense = Expense(description: string, amount: int)

  /** A generated report with its totals in cents. */
  class Report {
    var totalSales: int
    var totalPurchases: int
    var totalExpenses: int
    var netProfit: int
    var totalProductPrice: int
    var saves: nat

    /** Every total defaults to 0. */
    constructor ()
      ensures totalSales == 0 && totalPurchases == 0 && totalExpenses == 0
      ensures netProfit == 0 && totalProductPrice == 0
      ensures saves == 0
    {
      totalSales := 0;
      totalPurchases := 0;
      totalExpenses := 0;
      netProfit := 0;
      totalProductPrice := 0;
      saves := 0;
    }

    /** `calculate_total_product_price()`: the total worth of every product
        in the database, then a save. The other totals stay as they were. */
    method CalculateTotalProductPrice(products: seq<ProductRow>)
      modifies this`totalProductPrice, this`saves
      ensures totalProductPrice == SumTotalValue(products)
      ensures saves == old(saves) + 1
    {
      totalProductPrice := SumTotalValue(products);
      saves := saves + 1;
    }
  }
}
