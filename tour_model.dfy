/**
 * The tour entity of the tour service: its status and difficulty codes and
 * the `BeforeCreateTour` factory. Go stores both enums as plain integers.
 */
module TourModel {

  const Draft: int := 0
  const Published: int := 1
  const Archived: int := 2

  const Beginner: int := 0
  const Intermediate: int := 1
  const Advanced: int := 2
  const Pro: int := 3

  datatype Coordinates = Coordinates(latitude: real, longitude: real)

  /** An uploaded image as a key point stores it. */
  datatype Image = Image(data: seq<bv8>, mimeType: string, filename: string)

  /** The image a key point has when none was uploaded. */
  const NoImage := Image([], "", "")

  datatype KeyPoint = KeyPoint(
    id: string, tourId: string, coordinates: Coordinates, title: string, description: string, image: Image)

  /** `BeforeCreateKeyPoint`: a key point under a new id with the given fields. */
  function BeforeCreateKeyPoint(tourId: string, coordinates: Coordinates, title: string, description: string,
                                image: Image, newId: string): KeyPoint
  {
    KeyPoint(newId, tourId, coordinates, title, description, image)
  }

  /** A tour as the service stores it; the price is a float in the source. */
  datatype Tour = Tour(
    id: string, authorId: string, title: string, description: string,
    difficulty: int, tags: seq<string>, status: int, price: real)

  /** Tourists can take a tour only in these states. */
  predicate Startable(status: int)
  {
    status == Published || status == Archived
  }

  /**
   * `BeforeCreateTour`: a new tour under a new id, with the author's fields
   * copied, in Draft and free.
   */
  function BeforeCreateTour(authorId: string, title: string, description: string, tags: seq<string>,
                            difficulty: int, newId: string): (t: Tour)
    ensures t.status == Draft && t.price == 0.0 && t.id == newId
    ensures t.authorId == authorId && t.title == title && t.description == description
    ensures t.tags == tags && t.difficulty == difficulty
  {
    Tour(newId, authorId, title, description, difficulty, tags, Draft, 0.0)
  }

  /** A tour fresh from the factory cannot be taken until its status is changed. */
  lemma NewTourNotStartable(authorId: string, title: string, description: string, tags: seq<string>,
                            difficulty: int, newId: string)
    ensures !Startable(BeforeCreateTour(authorId, title, description, tags, difficulty, newId).status)
  {
  }
}
