/**
 * What the shop's catalog pages share: the pet record shown on the dog and cat pages and
 * the cart entry their "add to cart" buttons hand to the cart.
 */
module Catalog {

  /** A pet for sale; `price` is in dollars. */
  datatype Pet = Pet(
    id: string,
    name: string,
    breed: string,
    age: string,
    price: real,
    image: string,
    description: string,
    personality: seq<string>,
    gender: string,
    size: string)

  /** The object a page passes to the cart's `addToCart`. */
  datatype CartEntry = CartEntry(id: string, name: string, price: real, image: string, category: string)

  /** The address of a catalog photo: every page shows photo `photo` from the same image host. */
  function PexelsPhoto(photo: string): string
  {
    "https://images.pexels.com/photos/" + photo + "/pexels-photo-" + photo + ".jpeg?auto=compress&cs=tinysrgb&w=600"
  }
}
