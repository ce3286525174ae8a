/** The storefront's entities: products, cart lines, orders and their status, and the two portals. */
module Types {
  import opened Wrappers

  /** The four states of an order; the store lets any state follow any other. */
  datatype OrderStatus = Pending | Shipped | Completed | Cancelled

  /** The string a status travels as (the admin's status selector offers exactly these four). */
  function StatusName(s: OrderStatus): string
  {
    match s
    case Pending => "Pending"
    case Shipped => "Shipped"
    case Completed => "Completed"
    case Cancelled => "Cancelled"
  }

  /** The status a string names, if it names one. */
  function ParseStatus(name: string): (r: Option<OrderStatus>)
    ensures r.Some? ==> StatusName(r.value) == name
    ensures r.None? <==> name != "Pending" && name != "Shipped" && name != "Completed" && name != "Cancelled"
  {
    if name == "Pending" then Some(Pending)
    else if name == "Shipped" then Some(Shipped)
    else if name == "Completed" then Some(Completed)
    else if name == "Cancelled" then Some(Cancelled)
    else None
  }

  /** Each status has its own name: parsing the name gives the status back. */
  lemma StatusNameRoundTrip(s: OrderStatus)
    ensures ParseStatus(StatusName(s)) == Some(s)
  {
  }

  /** A catalog entry; its identity is `id`. Prices and stock are whole numbers here. */
  datatype Product = Product(
    id: string,
    name: string,
    description: string,
    price: int,
    stock: int,
    image: string,
    category: string)

  /** A cart line: a snapshot of every product field, plus how many of it are wanted. */
  datatype CartItem = CartItem(
    id: string,
    name: string,
    description: string,
    price: int,
    stock: int,
    image: string,
    category: string,
    quantity: int)

  /** The product fields of a cart line. */
  function AsProduct(c: CartItem): Product
  {
    Product(c.id, c.name, c.description, c.price, c.stock, c.image, c.category)
  }

  /** `{ ...p, quantity: q }`: the line keeps every field of the product. */
  function WithQuantity(p: Product, q: int): (c: CartItem)
    ensures AsProduct(c) == p && c.quantity == q
  {
    CartItem(p.id, p.name, p.description, p.price, p.stock, p.image, p.category, q)
  }

  /** A placed order: its own copy of the cart lines, a total fixed at checkout, and a status. */
  datatype Order = Order(
    id: string,
    items: seq<CartItem>,
    total: int,
    status: OrderStatus,
    customerName: string,
    date: string)

  /** Which view is showing. */
  datatype Portal = Buyer | Admin
}
