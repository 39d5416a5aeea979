/** The records the API returns and the pages hold. */
module Entities {
  import opened Json

  datatype Organization = Organization(id: int, name: string)

  /** An opportunity as listed by `GET /api/opportunities/`. `createdAt`
      stands for the `created_at` timestamp, as an instant on an integer
      clock. */
  datatype Opportunity = Opportunity(
    id: int,
    title: string,
    description: string,
    date: string,
    location: string,
    volunteersNeeded: int,
    volunteersRegistered: int,
    skillsRequired: seq<string>,
    createdAt: int,
    organization: Organization)

  datatype Author = Author(id: int, name: string)

  datatype CommunityPost = CommunityPost(
    id: int,
    author: Author,
    title: string,
    content: string,
    category: string,
    likes: int,
    comments: int,
    createdAt: string,
    tags: seq<string>)

  datatype Comment = Comment(id: int, author: Author, content: string, createdAt: string)

  /** Why a call failed: a response with its status and body, or no
      response at all. */
  datatype HttpFailure =
    | HttpError(status: int, data: JsonValue)
    | NetworkError

  predicate IsUnauthorized(f: HttpFailure) {
    f.HttpError? && f.status == 401
  }
}
