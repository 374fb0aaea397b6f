/**
  * The commerce backend's product records, as far as the storefront reads
  * them, and the compact product summary the assistant's tools hand back to
  * the chat. Optional fields are `Option`s; every field the storefront never
  * reads is left out.
  */
module Catalog {
  import opened Builtins

  datatype CalculatedPrice = CalculatedPrice(amount: Option<int>, currencyCode: Option<string>)

  datatype Variant = Variant(id: Option<string>, calculatedPrice: Option<CalculatedPrice>)

  datatype Image = Image(url: Option<string>)

  /** A seller as embedded in a product; `products` is the seller's own catalogue. */
  datatype Seller = Seller(id: string, storeStatus: Option<string>, products: Option<seq<Product>>)

  datatype Product = Product(
    id: string,
    title: Option<string>,
    description: Option<string>,
    handle: Option<string>,
    thumbnail: Option<string>,
    images: Option<seq<Image>>,
    variants: Option<seq<Variant>>,
    seller: Option<Seller>)

  /** The product summary `{id, variant_id, title, description, price, currency, thumbnail, handle}`. */
  datatype ToolProduct = ToolProduct(
    id: string,
    variantId: string,
    title: Option<string>,
    description: Option<string>,
    price: int,
    currency: string,
    thumbnail: string,
    handle: Option<string>)

  /** `p.variants?.[0]` */
  function FirstVariant(p: Product): Option<Variant> {
    if p.variants.Some? && |p.variants.value| > 0 then Some(p.variants.value[0]) else None
  }

  /** `p.images?.[0]` */
  function FirstImage(p: Product): Option<Image> {
    if p.images.Some? && |p.images.value| > 0 then Some(p.images.value[0]) else None
  }
}
