/**
 * The feed's record type (`FeedItem`): immutable, with structural equality.
 * A Dafny datatype gives both: its fields cannot be reassigned, and two
 * values are equal exactly when all four fields are equal, which is what
 * Swift's synthesized `Equatable` does. Strings are compared here as
 * sequences of code points, not by Swift's canonical equivalence.
 */
module FeedItems {
  import opened Foundation

  /** `id` and `imageUrl` are always present; `description` and `location` may be absent. */
  datatype FeedItem = FeedItem(
    id: Uuid,
    description: Option<string>,
    location: Option<string>,
    imageUrl: Url)
}
