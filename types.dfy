/** The frontend's records (frontend/src/lib/types.ts). Prices are integer
    cents; an order's status is the raw string the API sends. */
module Types {

  datatype Category = Category(id: int, name: string)

  datatype Product = Product(
    id: int,
    name: string,
    description: string,
    price: int,
    imgUrl: string,
    categories: seq<Category>)

  /** A granted authority such as "ROLE_ADMIN". */
  datatype Role = Role(id: int, authority: string)

  datatype User = User(
    id: int,
    firstName: string,
    lastName: string,
    email: string,
    roles: seq<Role>)

  datatype OrderItem = OrderItem(productId: int, quantity: int, price: int)

  datatype Order = Order(id: int, status: string, client: User, items: seq<OrderItem>)

  const WaitingPayment: string := "WAITING_PAYMENT"
  const Paid: string := "PAID"
  const Shipped: string := "SHIPPED"
  const Delivered: string := "DELIVERED"
  const Canceled: string := "CANCELED"

  /** The five statuses the OrderStatus enum declares. */
  predicate IsKnownStatus(status: string)
  {
    status in {WaitingPayment, Paid, Shipped, Delivered, Canceled}
  }

  const AdminRole: string := "ROLE_ADMIN"
  const ClientRole: string := "ROLE_CLIENT"
}
