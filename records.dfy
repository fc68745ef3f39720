/**
 * The records the extension passes around: the product `extractProductInfo`
 * builds and the cart entries `StorageHelper` keeps.
 */
module Records {
  import opened Wrappers

  /**
   * A detected product.  `timestamp` is `Date.now()` at detection; a cart
   * entry read back from storage may lack it, hence the `Option`.
   */
  datatype Product = Product(
    id: string,
    title: string,
    price: string,
    image: string,
    url: string,
    store: string,
    timestamp: Option<int>,
    quantity: int)

  /** A cart entry: the product's fields plus the `addedAt`/`updatedAt` stamps `addToCart` writes. */
  datatype Item = Item(product: Product, addedAt: Option<int>, updatedAt: Option<int>)

  /** A settings value: the flags are booleans, the endpoint a string. */
  datatype SettingValue = Flag(on: bool) | Text(text: string)

  /** JavaScript truthiness of a settings entry (a missing key reads as `undefined`). */
  predicate Truthy(settings: map<string, SettingValue>, key: string) {
    key in settings && match settings[key]
      case Flag(on) => on
      case Text(text) => text != ""
  }
}
