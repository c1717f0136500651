/**
 * The entities of the forum engine that the notification core reads.
 * Users, messageboards, topics and posts are identified by number; timestamps
 * are integers (seconds), since only their order matters.
 */
module Records {
  type UserId = nat
  type BoardId = nat
  type TopicId = nat
  type PostId = nat

  /** A post in a public topic of a messageboard. */
  datatype Post = Post(id: PostId, author: UserId, topic: TopicId, board: BoardId)

  /** A post in a private conversation (a private topic). */
  datatype PrivatePost = PrivatePost(id: PostId, author: UserId, topic: TopicId, createdAt: int)
}
