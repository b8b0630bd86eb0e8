/**
 * The argument the pages pass to the cart's `addItem`, as built at its call sites in
 * `src/pages/ProductDetail.tsx` and `src/components/ProductGallery.tsx`. The cart store itself
 * (`src/contexts/CartContext.tsx`) is not part of this model.
 */
module Cart {
  import opened Wrappers
  import Schemas

  /**
   * The item handed to `addItem`: the product's identity, price, picture and category, and the
   * chosen variant text when there is one. There is no quantity field: a page never sends one.
   */
  datatype CartItem = CartItem(
    id: string,
    name: string,
    price: real,
    image: string,
    category: Schemas.Category,
    variant: Option<string>)
}
