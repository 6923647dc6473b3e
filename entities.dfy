/**
 * The records the components exchange: a user as stored by the form, the
 * row shape the user tables display, and a catalog product with its reviews.
 */
module Entities {
  import opened Wrappers

  /** A user as built by the add-user form. `imageUrl` is declared but never set by the form. */
  datatype User = User(
    id: string,
    firstName: string,
    lastName: string,
    age: int,
    gender: string,
    email: string,
    phone: string,
    dateOfBirth: string,
    role: string,
    imageUrl: Option<string>)

  datatype Status = Active | Inactive | Pending

  /** The row shape the user table and the dashboard preview expect. */
  datatype UserRow = UserRow(
    id: string,
    name: string,
    email: string,
    role: string,
    status: Status,
    createdAt: string)

  datatype Review = Review(
    rating: real,
    comment: string,
    date: string,
    reviewerName: string,
    reviewerEmail: string)

  /** A catalog product; optional properties of the API record are `Option`s. */
  datatype Product = Product(
    id: int,
    title: string,
    description: string,
    price: real,
    discountPercentage: Option<real>,
    rating: real,
    stock: int,
    brand: Option<string>,
    category: string,
    thumbnail: string,
    images: seq<string>,
    availabilityStatus: string,
    warrantyInformation: Option<string>,
    shippingInformation: Option<string>,
    returnPolicy: Option<string>,
    minimumOrderQuantity: Option<int>,
    reviews: Option<seq<Review>>)
}
