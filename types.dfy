/** The records the front end receives from the API. */
module Types {
  import opened Options

  /**
   * A signed-in user. The role is kept as a string: the declared union is
   * 'user' | 'agent' | 'admin', yet the pages compare it against 'tour_guide' too.
   */
  datatype User = User(id: int, name: string, email: string, role: string)

  /** A tour package as a package card receives it (the price is not modelled). */
  datatype TourPackage = TourPackage(
    id: int,
    title: string,
    slug: string,
    destination: string,
    description: Option<string>,
    imageUrl: Option<string>,
    durationDays: int,
    durationNights: int,
    seatsAvailable: int,
    featured: bool)
}
