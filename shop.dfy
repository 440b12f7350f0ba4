/** The state of the App screen and the event handlers that replace it: the
    sale flow (`startSelling`, the quantity stepper, `handleConfirmSale`),
    the product form's `onSave`, the PIN pad (`handlePinInput`) and
    `handleRestore`. Ids and timestamps (`crypto.randomUUID`, `Date.now`)
    and the answer to `window.confirm` are parameters. */
module App {

  import opened Types
  import opened Text
  import opened Inventory
  import opened ProductForm

  const AdminPin: string := "1234"
  const PinLength: nat := 4

  datatype SaleOutcome = NoProductSelected | MissingCustomerName | Sold(sale: Sale)

  /** An uploaded backup file as `JSON.parse` sees it: no file chosen, text
      that is not JSON (or is `null`), or a document whose `products` and
      `sales` fields may be absent. */
  datatype BackupFile = NoFileChosen | NotJson | Document(products: Option<seq<Product>>, sales: Option<seq<Sale>>)

  datatype RestoreOutcome = NoFile | Unreadable | Malformed | Declined | Restored

  function Max(a: int, b: int): int { if a >= b then a else b }

  function Min(a: int, b: int): int { if a <= b then a else b }

  class Shop {
    var products: seq<Product>
    var sales: seq<Sale>
    var role: Role
    var selectedProduct: Option<Product>
    var isSelling: bool
    var sellQuantity: int
    var customer: CustomerInfo
    var isEditing: bool
    var enteredPin: string
    var showLoginModal: bool

    /** While the sale dialog is open a product is selected and the quantity
        lies between 1 and that product's stock; the PIN never holds a full
        four digits between key presses. */
    ghost predicate Valid()
      reads this
    {
      && (isSelling ==> selectedProduct.Some? && 1 <= sellQuantity <= selectedProduct.value.stock)
      && |enteredPin| < PinLength
    }

    /** The initial `useState` values (before the stored data is loaded). */
    constructor ()
      ensures Valid()
      ensures products == [] && sales == [] && role == User && selectedProduct == None
      ensures !isSelling && sellQuantity == 1 && customer == EmptyCustomer
      ensures !isEditing && enteredPin == "" && !showLoginModal
    {
      products, sales, role, selectedProduct := [], [], User, None;
      isSelling, sellQuantity, customer := false, 1, EmptyCustomer;
      isEditing, enteredPin, showLoginModal := false, "", false;
    }

    /** A tap on a product's sell button. The button is disabled when the
        stock is 0 or less, and then nothing happens. */
    method StartSelling(p: Product) returns (started: bool)
      requires Valid()
      modifies this`selectedProduct, this`sellQuantity, this`isSelling
      ensures Valid()
      ensures started == (p.stock > 0)
      ensures started ==> selectedProduct == Some(p) && sellQuantity == 1 && isSelling
      ensures !started ==>
        selectedProduct == old(selectedProduct) && sellQuantity == old(sellQuantity) && isSelling == old(isSelling)
    {
      started := p.stock > 0;
      if started {
        selectedProduct := Some(p);
        sellQuantity := 1;
        isSelling := true;
      }
    }

    /** The "-" key of the sale dialog, shown only while selling. */
    method DecreaseQuantity()
      requires Valid() && isSelling
      modifies this`sellQuantity
      ensures Valid()
      ensures sellQuantity == Max(1, old(sellQuantity) - 1)
      ensures 1 <= sellQuantity <= old(sellQuantity)
    {
      sellQuantity := Max(1, sellQuantity - 1);
    }

    /** The "+" key of the sale dialog: never beyond the selected stock. */
    method IncreaseQuantity()
      requires Valid() && isSelling
      modifies this`sellQuantity
      ensures Valid()
      ensures sellQuantity == Min(selectedProduct.value.stock, old(sellQuantity) + 1)
      ensures old(sellQuantity) <= sellQuantity <= selectedProduct.value.stock
    {
      sellQuantity := Min(selectedProduct.value.stock, sellQuantity + 1);
    }

    /** Typing in the customer-name field of the sale dialog. */
    method EnterCustomerName(name: string)
      requires Valid()
      modifies this`customer
      ensures Valid()
      ensures customer == old(customer).(fullName := name)
    {
      customer := customer.(fullName := name);
    }

    /** The close button of the sale dialog. */
    method CancelSale()
      requires Valid()
      modifies this`isSelling
      ensures Valid() && !isSelling
    {
      isSelling := false;
    }

    /** `handleConfirmSale`. Without a selected product, or with a blank
        customer name, nothing changes. Otherwise one sale is put at the front
        of the ledger, snapshotting the product's name and prices and the
        customer, and every catalog entry with the product's id loses the sold
        quantity; the dialog closes and the customer form is cleared. */
    method ConfirmSale(saleId: string, now: int) returns (outcome: SaleOutcome)
      requires Valid()
      modifies this`sales, this`products, this`isSelling, this`customer
      ensures Valid()
      ensures outcome == NoProductSelected <==> selectedProduct.None?
      ensures outcome == MissingCustomerName <==> selectedProduct.Some? && IsBlank(old(customer).fullName)
      ensures !outcome.Sold? ==>
        sales == old(sales) && products == old(products) && isSelling == old(isSelling) && customer == old(customer)
      ensures outcome.Sold? ==>
        var p, s := selectedProduct.value, outcome.sale;
        && sales == [s] + old(sales)
        && s.id == saleId && s.productId == p.id && s.productName == p.name
        && s.quantity == sellQuantity
        && s.sellingPrice == p.sellingPrice && s.purchasePrice == p.purchasePrice
        && s.totalAmount == p.sellingPrice * sellQuantity
        && s.timestamp == now && s.customer == Some(old(customer)) && s.status == None
        && products == DecrementStock(old(products), p.id, sellQuantity)
        && !isSelling && customer == EmptyCustomer
      ensures outcome.Sold? && old(isSelling) ==> 1 <= outcome.sale.quantity <= selectedProduct.value.stock
    {
      var blank := IsBlank(customer.fullName);
      if selectedProduct.None? {
        outcome := NoProductSelected;
      } else if blank {
        outcome := MissingCustomerName;
      } else {
        var p, q := selectedProduct.value, sellQuantity;
        var s := Sale(saleId, p.id, p.name, q, p.sellingPrice, p.purchasePrice,
                      p.sellingPrice * q, now, Some(customer), None);
        sales := [s] + sales;
        products := DecrementStock(products, p.id, q);
        isSelling := false;
        customer := EmptyCustomer;
        outcome := Sold(s);
      }
    }

    /** Opening a product's detail view (or finding it by a scan); the sale
        dialog covers the screen, so this happens only when it is closed. */
    method SelectProduct(p: Product)
      requires Valid() && !isSelling
      modifies this`selectedProduct
      ensures Valid() && selectedProduct == Some(p)
    {
      selectedProduct := Some(p);
    }

    /** The "new product" button, shown to the admin only. */
    method BeginAdd()
      requires Valid() && role == Admin
      modifies this`isEditing
      ensures Valid() && !isEditing
    {
      isEditing := false;
    }

    /** The "edit product" button of the detail view, shown to the admin only. */
    method BeginEdit()
      requires Valid() && role == Admin
      modifies this`isEditing
      ensures Valid() && isEditing
    {
      isEditing := true;
    }

    /** The `onSave` callback: in edit mode (with a selected product) the
        entries with the selected id take the form's data and keep their id
        and creation time; otherwise one new product is appended. */
    method SaveProduct(d: ProductData, newId: string, now: int)
      requires Valid()
      modifies this`products, this`isEditing
      ensures Valid()
      ensures old(isEditing) && selectedProduct.Some? ==>
        products == ApplyEdit(old(products), selectedProduct.value.id, d) && !isEditing
      ensures !(old(isEditing) && selectedProduct.Some?) ==>
        products == old(products) + [NewProduct(d, newId, now)] && isEditing == old(isEditing)
    {
      if isEditing && selectedProduct.Some? {
        products := ApplyEdit(products, selectedProduct.value.id, d);
        isEditing := false;
      } else {
        products := products + [NewProduct(d, newId, now)];
      }
    }

    /** Submitting the product form: `onSave` runs only when the form has a
        name and an image. */
    method SubmitProductForm(f: Form, newId: string, now: int) returns (saved: bool)
      requires Valid()
      modifies this`products, this`isEditing
      ensures Valid()
      ensures saved <==> f.name != "" && f.imageUrl != ""
      ensures !saved ==> products == old(products) && isEditing == old(isEditing)
      ensures saved && old(isEditing) && selectedProduct.Some? ==>
        products == ApplyEdit(old(products), selectedProduct.value.id, Submit(f).value) && !isEditing
      ensures saved && !(old(isEditing) && selectedProduct.Some?) ==>
        products == old(products) + [NewProduct(Submit(f).value, newId, now)] && isEditing == old(isEditing)
    {
      var data := Submit(f);
      saved := data.Some?;
      if saved {
        SaveProduct(data.value, newId, now);
      }
    }

    /** `handlePinInput`: a key of the PIN pad. A PIN that would grow beyond
        four digits is ignored; at four digits it is cleared, and the role
        becomes admin (closing the pad) exactly when the digits are 1234. */
    method PinInput(digit: string)
      requires Valid()
      modifies this`enteredPin, this`role, this`showLoginModal
      ensures Valid()
      ensures var next := old(enteredPin) + digit;
        && (|next| > PinLength ==> enteredPin == old(enteredPin))
        && (|next| < PinLength ==> enteredPin == next)
        && (|next| == PinLength ==> enteredPin == "")
        && role == (if next == AdminPin then Admin else old(role))
        && showLoginModal == (if next == AdminPin then false else old(showLoginModal))
    {
      var next := enteredPin + digit;
      if |next| <= PinLength {
        enteredPin := next;
        if |next| == PinLength {
          if next == AdminPin {
            role := Admin;
            showLoginModal := false;
            enteredPin := "";
          } else {
            enteredPin := "";
          }
        }
      }
    }

    /** The close button of the PIN pad. */
    method CancelLogin()
      requires Valid()
      modifies this`showLoginModal, this`enteredPin
      ensures Valid() && !showLoginModal && enteredPin == ""
    {
      showLoginModal := false;
      enteredPin := "";
    }

    /** The "admin" button of the settings: the PIN pad opens unless the role
        is admin already. */
    method RequestAdmin()
      requires Valid()
      modifies this`showLoginModal
      ensures Valid()
      ensures showLoginModal == (old(showLoginModal) || role != Admin)
    {
      if role != Admin {
        showLoginModal := true;
      }
    }

    /** The "staff" button of the settings. */
    method SwitchToUser()
      requires Valid()
      modifies this`role
      ensures Valid() && role == User
    {
      role := User;
    }

    /** `handleRestore`, behind the data section that only the admin sees.
        Catalog and ledger are replaced wholesale only when the document has
        both a `products` and a `sales` field and the user confirms; in every
        other case they are left as they were. */
    method Restore(file: BackupFile, confirmed: bool) returns (outcome: RestoreOutcome)
      requires Valid() && role == Admin
      modifies this`products, this`sales
      ensures Valid()
      ensures outcome == NoFile <==> file.NoFileChosen?
      ensures outcome == Unreadable <==> file.NotJson?
      ensures outcome == Malformed <==> file.Document? && (file.products.None? || file.sales.None?)
      ensures outcome == Declined <==> file.Document? && file.products.Some? && file.sales.Some? && !confirmed
      ensures outcome == Restored ==> products == file.products.value && sales == file.sales.value
      ensures outcome != Restored ==> products == old(products) && sales == old(sales)
    {
      match file
      case NoFileChosen => outcome := NoFile;
      case NotJson => outcome := Unreadable;
      case Document(ps, ss) =>
        if ps.Some? && ss.Some? {
          if confirmed {
            products := ps.value;
            sales := ss.value;
            outcome := Restored;
          } else {
            outcome := Declined;
          }
        } else {
          outcome := Malformed;
        }
    }
  }

  /** Keying 1, 2, 3, 4 on a fresh PIN pad makes the shop's user the admin,
      closes the pad and clears the PIN; nothing else changes. */
  method UnlockAdmin(shop: Shop)
    requires shop.Valid() && shop.enteredPin == ""
    modifies shop`showLoginModal, shop`enteredPin, shop`role
    ensures shop.Valid() && shop.role == Admin
    ensures !shop.showLoginModal && shop.enteredPin == ""
    ensures shop.products == old(shop.products) && shop.sales == old(shop.sales)
    ensures shop.isSelling == old(shop.isSelling)
  {
    shop.RequestAdmin();
    shop.PinInput("1");
    assert shop.enteredPin == "1";
    shop.PinInput("2");
    assert shop.enteredPin == "12";
    shop.PinInput("3");
    assert shop.enteredPin == "123";
    shop.PinInput("4");
  }

  /** The admin restores a catalog holding only `p`, opens the sale dialog
      on it and presses `+` twice. */
  method OpenSaleOfThree(p: Product) returns (shop: Shop)
    requires p.stock == 10
    ensures fresh(shop) && shop.Valid()
    ensures shop.products == [p] && shop.sales == []
    ensures shop.isSelling && shop.selectedProduct == Some(p) && shop.sellQuantity == 3
  {
    shop := new Shop();
    UnlockAdmin(shop);
    var restored := shop.Restore(Document(Some([p]), Some([])), true);
    assert shop.products == [p];
    var started := shop.StartSelling(p);
    shop.IncreaseQuantity();
    shop.IncreaseQuantity();
  }

  /** A product with 10 in stock at 100 each, sold three at a time to a
      named customer: the ledger gains one sale of 300 and the stock drops
      to 7. */
  method SellThreeOfTen(p: Product, name: string) returns (shop: Shop, outcome: SaleOutcome)
    requires p.stock == 10 && p.sellingPrice == 100 && !IsBlank(name)
    ensures fresh(shop) && shop.Valid() && !shop.isSelling
    ensures outcome.Sold? && outcome.sale.quantity == 3 && outcome.sale.totalAmount == 300
    ensures outcome.sale.productId == p.id && outcome.sale.timestamp == 1704412800000
    ensures shop.sales == [outcome.sale]
    ensures shop.products == [p.(stock := 7)]
  {
    shop := OpenSaleOfThree(p);
    shop.EnterCustomerName(name);
    assert shop.customer.fullName == name;
    outcome := shop.ConfirmSale("S1", 1704412800000);
    assert outcome != NoProductSelected && outcome != MissingCustomerName;
    assert shop.products == DecrementStock([p], p.id, 3);
    assert shop.products[0] == p.(stock := 7);
  }
}
