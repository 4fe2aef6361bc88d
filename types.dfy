/**
 * The entities the storefront exchanges with its REST backend (src/types/index.ts), reduced to the
 * fields the modelled logic reads, and the outcome of one remote call.
 * Money is integer cents throughout.
 */
module Types {
  import opened Wrappers

  datatype User = User(id: string, email: string, firstName: string, lastName: string, phone: Option<string>)

  datatype Category = Category(id: string, name: string, slug: string, sortOrder: int, isActive: bool)

  datatype Product = Product(
    id: string,
    name: string,
    description: string,
    shortDescription: Option<string>,
    price: int,
    mainImageUrl: Option<string>,
    featured: bool)

  datatype Combo = Combo(id: string, name: string, price: int, imageUrl: Option<string>)

  datatype Store = Store(id: string, name: string, slug: string)

  /** One full catalog snapshot, including the server-computed category index. */
  datatype Catalog = Catalog(
    store: Store,
    categories: seq<Category>,
    products: seq<Product>,
    combos: seq<Combo>,
    featuredProducts: seq<Product>,
    productsByCategory: map<string, seq<Product>>)

  datatype WishlistItem = WishlistItem(id: string, product: Product, addedAt: string)

  /** The JSON body of an HTTP error response, with the fields the error messages are drawn from;
      an absent list is the empty sequence. */
  datatype ErrorBody = ErrorBody(
    nonFieldErrors: seq<string>,
    detail: Option<string>,
    error: Option<string>,
    email: seq<string>,
    password: seq<string>)

  datatype Response = Response(status: int, data: ErrorBody)

  /** A rejected request: `response` is absent for network errors and timeouts. */
  datatype ApiError = ApiError(response: Option<Response>, message: string)

  /** The outcome of one remote call, treated as an atomic step. */
  datatype Remote<+T> = Ok(value: T) | Err(error: ApiError)

  /** `error.response?.status === 401` */
  predicate Is401(e: ApiError) {
    e.response.Some? && e.response.value.status == 401
  }
}
