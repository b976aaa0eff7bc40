/** The post record the server sends, shared by the profile page and the composer. */
module Posts {

  /** A post as the server lists it (timestamps are not modelled). */
  datatype Post = Post(id: int, userId: int, username: string, body: string,
                       likesCount: int, commentsCount: int, isLiked: bool)
}
