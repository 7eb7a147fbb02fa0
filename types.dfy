/** Records shared by the storefront: the catalogue entities of src/types.ts.
    Money is an exact `real`; JavaScript's binary floating point is not modelled. */
module Types {

  /** An optional value (a TypeScript `T | undefined` or `T | null`). */
  datatype Option<+T> = None | Some(value: T) {
    function GetOr(default: T): T {
      match this
      case Some(v) => v
      case None => default
    }
  }

  /** A catalogue product (src/types.ts:1-9). */
  datatype Product = Product(
    id: string,
    name: string,
    description: Option<string>,
    price: real,
    category: string,
    image: Option<string>,
    available: bool)

  /** An extra that can be added to a product (src/types.ts:11-16). */
  datatype Additional = Additional(id: string, name: string, price: real)

  /** One line of the cart (src/types.ts:18-24); `meatPoint` is optional. */
  datatype CartItem = CartItem(
    product: Product,
    quantity: int,
    additionals: seq<Additional>,
    notes: string,
    meatPoint: Option<string>)

  /** Store configuration (src/types.ts:26-33). */
  datatype StoreSettings = StoreSettings(
    id: string,
    name: string,
    whatsapp: string,
    deliveryFee: real,
    isOpen: bool,
    openingHours: string)

  /** A discount coupon (src/types.ts:35-41); `kind` is the source's `type` field,
      "percentage", "fixed" or any other string. */
  datatype Coupon = Coupon(id: string, code: string, discount: real, kind: string, active: bool)
}
