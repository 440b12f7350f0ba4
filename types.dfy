/** The record shapes of the shop: products in the catalog, customers and
    the sales of the ledger. Prices, stock, quantities and timestamps
    (epoch milliseconds) are integers. */
module Types {

  /** An optional value, for the `?` fields of the records. */
  datatype Option<+T> = None | Some(value: T) {
    function GetOr(default: T): T {
      match this
      case Some(v) => v
      case None => default
    }
  }

  /** A catalog entry; `id` and `createdAt` are assigned when it is created. */
  datatype Product = Product(
    id: string,
    sku: Option<string>,
    name: string,
    brand: Option<string>,
    description: string,
    purchasePrice: int,
    sellingPrice: int,
    stock: int,
    unit: Option<string>,
    imageUrl: string,
    createdAt: int,
    category: Option<string>)

  datatype CustomerInfo = CustomerInfo(fullName: string, address: string, idCard: string)

  /** The customer form as it is reset after every sale. */
  const EmptyCustomer := CustomerInfo("", "", "")

  datatype SaleStatus = Success | Pending | Shipping

  /** A ledger entry: a snapshot of the product's name and prices at sale time. */
  datatype Sale = Sale(
    id: string,
    productId: string,
    productName: string,
    quantity: int,
    sellingPrice: int,
    purchasePrice: int,
    totalAmount: int,
    timestamp: int,
    customer: Option<CustomerInfo>,
    status: Option<SaleStatus>)

  datatype Role = Admin | User
}
