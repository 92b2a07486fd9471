/** The REST serializers of the backend: how products are represented to the
    browser, and when a purchase, a sale or a registration is accepted. Field
    validation runs first, field by field; the object-level check runs only
    when every field passed. */
module Serializers {
  import opened Text
  import opened Js
  import opened Wrappers
  import Models

  /** Validation errors, field by field in declaration order, each field with
      its messages: the `{field: [message, ...]}` body of a 400 reply. */
  type Errors = seq<(string, seq<string>)>

  datatype Checked<T> = Accepted(data: T) | Rejected(errors: Errors)

  /** An error body as the browser parses it: each field maps to an array of texts. */
  function ErrorJson(errors: Errors): (entries: Entries)
    ensures |entries| == |errors|
    ensures forall i :: 0 <= i < |errors| ==> entries[i].0 == errors[i].0
    ensures forall i :: 0 <= i < |errors| ==> entries[i].1 == Arr(seq(|errors[i].1|, j requires 0 <= j < |errors[i].1| => Str(errors[i].1[j])))
  {
    seq(|errors|, i requires 0 <= i < |errors| => (errors[i].0, Arr(seq(|errors[i].1|, j requires 0 <= j < |errors[i].1| => Str(errors[i].1[j])))))
  }

  const MIN_ZERO := "Ensure this value is greater than or equal to 0."
  const REQUIRED := "This field is required."
  const BLANK := "This field may not be blank."
  const QUANTITY_NOT_POSITIVE := "Quantity must be greater than zero."
  const PASSWORD_MISMATCH := "Password fields didn't match."

  // ------------------------------------------------------------------- users

  /** `UserSerializer`: the JSON object sent for a user, with exactly six fields. */
  function UserJson(u: Models.UserRow): (o: Object)
    ensures o.Keys == {"id", "username", "email", "is_admin", "is_staff_user", "is_active"}
    ensures Get(o, "id") == Num(u.id) && Get(o, "username") == Str(u.username) && Get(o, "email") == Str(u.email)
    ensures Get(o, "is_admin") == Bool(u.isAdmin) && Get(o, "is_staff_user") == Bool(u.isStaffUser)
    ensures Get(o, "is_active") == Bool(u.isActive)
  {
    map["id" := Num(u.id), "username" := Str(u.username), "email" := Str(u.email),
        "is_admin" := Bool(u.isAdmin), "is_staff_user" := Bool(u.isStaffUser), "is_active" := Bool(u.isActive)]
  }

  // ---------------------------------------------------------------- products

  /** `ProductSerializer.get_low_stock`. */
  predicate LowStock(p: Models.ProductRow) {
    p.quantity <= 5
  }

  /** The threshold of `low_stock`: five units are low, six are not, and an
      empty or negative stock is always low. */
  lemma LowStockThreshold(p: Models.ProductRow)
    ensures p.quantity <= 0 ==> LowStock(p)
    ensures LowStock(p.(quantity := 5)) && !LowStock(p.(quantity := 6))
    ensures LowStock(p) ==> forall q :: q <= p.quantity ==> LowStock(p.(quantity := q))
  {
  }

  /** The JSON object sent for a product. Its `created_at` timestamp and its
      `total_value`, a floating-point number, are not represented. */
  function ProductJson(p: Models.ProductRow): (o: Object)
    ensures o.Keys == {"id", "name", "description", "quantity", "buying_price", "category", "low_stock"}
    ensures Get(o, "quantity") == Num(p.quantity)
    ensures Get(o, "low_stock") == Bool(LowStock(p))
    ensures Get(o, "name") == Str(p.name) && Get(o, "description") == Str(p.description)
    ensures Get(o, "category") == Str(p.category) && Get(o, "id") == Num(p.id)
    ensures Get(o, "buying_price") == Str(CentsToText(p.buyingPrice))
  {
    map["id" := Num(p.id), "name" := Str(p.name), "description" := Str(p.description),
        "quantity" := Num(p.quantity), "buying_price" := Str(CentsToText(p.buyingPrice)),
        "category" := Str(p.category), "low_stock" := Bool(LowStock(p))]
  }

  // --------------------------------------------------------------- purchases

  /** The message of a purchase refused because the product is still in stock. */
  function SufficientStockMessage(p: Models.ProductRow): string {
    "Cannot purchase: '" + p.name + "' has sufficient stock (" + IntToString(p.quantity) + ")"
  }

  /** The submitted fields of a purchase, with the product already looked up
      and the price already in cents. */
  datatype PurchaseData = PurchaseData(product: Models.ProductRow, quantity: int, pricePerUnit: int)

  /** `PurchaseSerializer.is_valid()`: the quantity field must not be negative
      (a positive-integer model field), then `validate_quantity` refuses 0,
      then `validate` refuses a product holding more than one unit. */
  function ValidatePurchase(d: PurchaseData): (r: Checked<PurchaseData>)
    ensures r.Accepted? <==> d.quantity > 0 && d.product.quantity <= 1
    ensures r.Accepted? ==> r.data == d
    ensures r.Rejected? ==> |r.errors| == 1
    ensures r.Rejected? && d.quantity <= 0 ==> r.errors[0].0 == "quantity"
    ensures r.Rejected? && d.quantity > 0 ==> r.errors == [("product", [SufficientStockMessage(d.product)])]
    ensures d.quantity == 0 ==> r == Rejected([("quantity", [QUANTITY_NOT_POSITIVE])])
  {
    if d.quantity < 0 then Rejected([("quantity", [MIN_ZERO])])
    else if d.quantity <= 0 then Rejected([("quantity", [QUANTITY_NOT_POSITIVE])])
    else if d.product.quantity > 1 then Rejected([("product", [SufficientStockMessage(d.product)])])
    else Accepted(d)
  }

  /** Purchases are accepted only for products holding at most one unit, so
      every product a purchase is accepted for is flagged as low on stock. */
  lemma AcceptedPurchaseIsLowStock(d: PurchaseData)
    requires ValidatePurchase(d).Accepted?
    ensures LowStock(d.product)
  {
  }

  /** The two thresholds differ: a product with three units is flagged low on
      stock and yet a purchase of it is refused. */
  lemma LowStockButNotPurchasable()
    ensures var p := Models.ProductRow(1, "Pen", "", 3, 100, "");
            LowStock(p) && ValidatePurchase(PurchaseData(p, 10, 100)).Rejected?
  {
  }

  /** The JSON object sent for a stored purchase: the product's id, the quantity,
      and the unit price and amount as two-decimal texts. The id, the buyer, the
      timestamp and the two read-only name fields are not represented. */
  function PurchaseJson(row: Models.PurchaseRow): (o: Object)
    ensures o.Keys == {"product", "quantity", "price_per_unit", "amount"}
    ensures Get(o, "product") == Num(row.productId) && Get(o, "quantity") == Num(row.quantity)
    ensures Get(o, "price_per_unit") == Str(CentsToText(row.pricePerUnit))
    ensures Get(o, "amount") == Str(CentsToText(row.amount))
  {
    map["product" := Num(row.productId), "quantity" := Num(row.quantity),
        "price_per_unit" := Str(CentsToText(row.pricePerUnit)), "amount" := Str(CentsToText(row.amount))]
  }

  /** `PurchaseSerializer.create`: the product's stock rises by the purchased
      quantity, its buying price becomes the unit price, the product is saved
      and the purchase is created (and saved). */
  method CreatePurchase(product: Models.Product, quantity: nat, pricePerUnit: int) returns (purchase: Models.Purchase)
    modifies product
    ensures fresh(purchase)
    ensures purchase.product == product && purchase.quantity == quantity && purchase.pricePerUnit == pricePerUnit
    ensures purchase.amount == Models.LineAmount(pricePerUnit, quantity)
    ensures purchase.stored == Some(purchase.Row()) == Some(Models.SavedPurchase(product.id, quantity, pricePerUnit))
    ensures product.Row() == old(product.Row()).(quantity := old(product.quantity) + quantity, buyingPrice := pricePerUnit)
    ensures product.stored == product.Row()
  {
    product.quantity := product.quantity + quantity;
    product.buyingPrice := pricePerUnit;
    product.Save();
    purchase := new Models.Purchase(product, quantity, pricePerUnit);
    purchase.Save();
  }

  /** A POST of a purchase: validation against the product as it is now, and
      creation when valid; a refused purchase changes nothing. */
  method PostPurchase(product: Models.Product, quantity: int, pricePerUnit: int) returns (r: Checked<Models.Purchase>)
    modifies product
    ensures var v := ValidatePurchase(PurchaseData(old(product.Row()), quantity, pricePerUnit));
            r.Rejected? <==> v.Rejected?
    ensures r.Rejected? ==> r.errors == ValidatePurchase(PurchaseData(old(product.Row()), quantity, pricePerUnit)).errors
    ensures r.Rejected? ==> unchanged(product)
    ensures r.Accepted? ==> fresh(r.data) && r.data.product == product && r.data.quantity == quantity
    ensures r.Accepted? ==> product.Row() == old(product.Row()).(quantity := old(product.quantity) + quantity, buyingPrice := pricePerUnit)
    ensures r.Accepted? ==> quantity > 0 && product.stored == product.Row()
  {
    var v := ValidatePurchase(PurchaseData(product.Row(), quantity, pricePerUnit));
    if v.Rejected? {
      return Rejected(v.errors);
    }
    var purchase := CreatePurchase(product, quantity, pricePerUnit);
    return Accepted(purchase);
  }

  // ------------------------------------------------------------------- sales

  /** The message of a sale refused for lack of stock. */
  function InsufficientStockMessage(p: Models.ProductRow): string {
    "Insufficient stock. Only " + IntToString(p.quantity) + " items available."
  }

  /** The submitted fields of a sale. */
  datatype SaleData = SaleData(product: Models.ProductRow, quantity: int, pricePerUnit: int)

  /** `SaleSerializer.is_valid()`: the quantity must not be negative, then
      `validate` refuses more than the product holds. Every refusal is
      reported under `quantity`. */
  function ValidateSale(d: SaleData): (r: Checked<SaleData>)
    ensures r.Accepted? <==> 0 <= d.quantity <= d.product.quantity
    ensures r.Accepted? ==> r.data == d && d.product.quantity - d.quantity >= 0
    ensures r.Rejected? ==> |r.errors| == 1 && r.errors[0].0 == "quantity" && |r.errors[0].1| == 1
    ensures d.quantity >= 0 && r.Rejected? ==> r.errors == [("quantity", [InsufficientStockMessage(d.product)])]
  {
    if d.quantity < 0 then Rejected([("quantity", [MIN_ZERO])])
    else if d.product.quantity < d.quantity then Rejected([("quantity", [InsufficientStockMessage(d.product)])])
    else Accepted(d)
  }

  /** A product flagged low on stock stays flagged after any sale that is accepted for it. */
  lemma LowStockStaysLowAfterSale(d: SaleData)
    requires LowStock(d.product) && ValidateSale(d).Accepted?
    ensures LowStock(d.product.(quantity := d.product.quantity - d.quantity))
  {
  }

  /** `SaleSerializer.create`: the product's stock falls by the sold
      quantity and the product is saved; the sale is created and saved. */
  method CreateSale(product: Models.Product, quantity: nat, pricePerUnit: int) returns (sale: Models.Sale)
    modifies product
    ensures fresh(sale)
    ensures sale.product == product && sale.quantity == quantity && sale.pricePerUnit == pricePerUnit
    ensures sale.amount == Some(Models.LineAmount(pricePerUnit, quantity))
    ensures sale.stored == Some(Models.SaleRow(product.id, quantity, pricePerUnit, Models.LineAmount(pricePerUnit, quantity)))
    ensures product.Row() == old(product.Row()).(quantity := old(product.quantity) - quantity)
    ensures product.stored == product.Row()
  {
    product.quantity := product.quantity - quantity;
    product.Save();
    sale := new Models.Sale(product, quantity, pricePerUnit);
    sale.Save();
  }

  /** A POST of a sale: a valid sale never leaves the stock negative, and a
      refused one changes nothing. */
  method PostSale(product: Models.Product, quantity: int, pricePerUnit: int) returns (r: Checked<Models.Sale>)
    modifies product
    ensures var v := ValidateSale(SaleData(old(product.Row()), quantity, pricePerUnit));
            (r.Rejected? <==> v.Rejected?) && (r.Rejected? ==> r.errors == v.errors)
    ensures r.Rejected? ==> unchanged(product)
    ensures r.Accepted? ==> fresh(r.data) && r.data.product == product && r.data.quantity == quantity
    ensures r.Accepted? ==> product.Row() == old(product.Row()).(quantity := old(product.quantity) - quantity)
    ensures r.Accepted? ==> product.quantity >= 0
  {
    var v := ValidateSale(SaleData(product.Row(), quantity, pricePerUnit));
    if v.Rejected? {
      return Rejected(v.errors);
    }
    var sale := CreateSale(product, quantity, pricePerUnit);
    return Accepted(sale);
  }

  // ------------------------------------------------------------ registration

  /** The text fields of a registration form, as submitted. */
  type Form = map<string, string>

  const REGISTRATION_FIELDS: set<string> := {"username", "email", "password", "password2"}

  /** The errors of one required text field that may not be blank. A `CharField`
      strips leading and trailing whitespace first, so a text of spaces is blank. */
  function RequiredText(form: Form, field: string): (e: seq<string>)
    ensures e == [] <==> field in form && Trim(form[field]) != ""
    ensures field !in form ==> e == [REQUIRED]
    ensures field in form && AllSpace(form[field]) ==> e == [BLANK]
  {
    if field !in form then [REQUIRED]
    else
      TrimEmptyIffAllSpace(form[field]);
      if Trim(form[field]) == "" then [BLANK] else []
  }

  /** Field-level errors, in the serializer's field order: `username`,
      `password` and `password2` are required and may not be blank; `email`
      is optional and may be blank. */
  function RegistrationFieldErrors(form: Form): (errors: Errors)
    ensures errors == [] <==> RequiredText(form, "username") == RequiredText(form, "password") == RequiredText(form, "password2") == []
    ensures errors == [] <==> && "username" in form && Trim(form["username"]) != ""
                              && "password" in form && Trim(form["password"]) != ""
                              && "password2" in form && Trim(form["password2"]) != ""
    ensures forall i :: 0 <= i < |errors| ==> errors[i].0 in {"username", "password", "password2"} && errors[i].1 != []
  {
    (if RequiredText(form, "username") == [] then [] else [("username", RequiredText(form, "username"))])
    + (if RequiredText(form, "password") == [] then [] else [("password", RequiredText(form, "password"))])
    + (if RequiredText(form, "password2") == [] then [] else [("password2", RequiredText(form, "password2"))])
  }

  /** The validated data of a registration: the submitted fields the serializer
      knows, each stripped of its surrounding whitespace, with `is_active`
      defaulting to true. */
  function RegistrationData(form: Form): (attrs: Object)
    ensures "is_active" in attrs && attrs["is_active"] == Bool(true)
    ensures forall f :: f in REGISTRATION_FIELDS && f in form ==> Get(attrs, f) == Str(Trim(form[f]))
    ensures attrs.Keys == {"is_active"} + (set f | f in REGISTRATION_FIELDS && f in form)
  {
    var stripped := map f | f in REGISTRATION_FIELDS && f in form :: Str(Trim(form[f]));
    assert forall f :: f in REGISTRATION_FIELDS && f in form ==> f in stripped && stripped[f] == Str(Trim(form[f]));
    assert "is_active"[0] != "password2"[0];
    assert "is_active" !in REGISTRATION_FIELDS;
    assert stripped.Keys == (set f | f in REGISTRATION_FIELDS && f in form);
    stripped["is_active" := Bool(true)]
  }

  /** `UserRegisterSerializer.is_valid()`: the field checks, then `validate`,
      which refuses a password that differs from its repetition once both are
      stripped of surrounding whitespace. */
  function ValidateRegistration(form: Form): (r: Checked<Object>)
    ensures r.Accepted? <==> RegistrationFieldErrors(form) == [] && Trim(form["password"]) == Trim(form["password2"])
    ensures r.Accepted? ==> r.data == RegistrationData(form)
    ensures RegistrationFieldErrors(form) != [] ==> r == Rejected(RegistrationFieldErrors(form))
    ensures RegistrationFieldErrors(form) == [] && Trim(form["password"]) != Trim(form["password2"]) ==> r == Rejected([("password", [PASSWORD_MISMATCH])])
  {
    var fieldErrors := RegistrationFieldErrors(form);
    if fieldErrors != [] then Rejected(fieldErrors)
    else if Trim(form["password"]) != Trim(form["password2"]) then Rejected([("password", [PASSWORD_MISMATCH])])
    else Accepted(RegistrationData(form))
  }

  /** A password of spaces only, typed twice, passes the page's own comparison
      but is blank to the serializer, under both password fields. */
  lemma SpacesOnlyPasswordIsBlank()
    ensures var form := map["username" := "bob", "password" := "   ", "password2" := "   "];
            ValidateRegistration(form) == Rejected([("password", [BLANK]), ("password2", [BLANK])])
  {
    var form := map["username" := "bob", "password" := "   ", "password2" := "   "];
    assert AllSpace(form["password"]) && AllSpace(form["password2"]);
    assert !IsSpace(form["username"][0]);
    TrimEmptyIffAllSpace(form["username"]);
    assert RequiredText(form, "username") == [];
    assert RequiredText(form, "password") == [BLANK];
    assert RequiredText(form, "password2") == [BLANK];
    assert RegistrationFieldErrors(form) == [("password", [BLANK]), ("password2", [BLANK])];
  }

  /** `UserRegisterSerializer.create`: `password2` is dropped and every other
      validated field is passed on to user creation unchanged. */
  function CreateUserArguments(attrs: Object): (args: Object)
    ensures args.Keys == attrs.Keys - {"password2"}
    ensures forall k :: k in args ==> args[k] == attrs[k]
  {
    attrs - {"password2"}
  }

  /** A valid registration creates a user from exactly the submitted known
      fields, stripped, except the repeated password, active unless said
      otherwise; the password it sets is never empty and never begins or ends
      with whitespace. */
  lemma RegisteredUser(form: Form)
    requires ValidateRegistration(form).Accepted?
    ensures var args := CreateUserArguments(ValidateRegistration(form).data);
            && "password2" !in args
            && Get(args, "username") == Str(Trim(form["username"]))
            && Get(args, "password") == Str(Trim(form["password"]))
            && Trim(form["password"]) != ""
            && !IsSpace(Trim(form["password"])[0]) && !IsSpace(Trim(form["password"])[|Trim(form["password"])| - 1])
            && Get(args, "is_active") == Bool(true)
  {
    var attrs := ValidateRegistration(form).data;
    assert attrs == RegistrationData(form);
    assert Get(attrs, "username") == Str(Trim(form["username"]));
    assert Get(attrs, "password") == Str(Trim(form["password"]));
  }
}
