/**
 * The preference resolver: whether a user wants notifications of new posts
 * through a given notifier, for a followed topic of some messageboard or for
 * a private topic. Preferences are stored per notifier key, in three tables;
 * an absent row is different from a row saying `false`.
 */
module Preferences {
  import opened Wrappers
  import opened Records

  /** A notifier's key: the stable name under which its preferences are stored. */
  type Key = string

  /** The key of the e-mail notifier. */
  const EmailKey: Key := "email"
  /** The key of the test double notifier used alongside it. */
  const MockKey: Key := "mock"

  /** The value used when no table has a row: notifications are opt-out. */
  const DefaultEnabled := true

  /** Where the new post lives. */
  datatype Scope = FollowedTopic(board: BoardId) | PrivateTopic

  datatype Settings = Settings(
    // notifications_for_followed_topics: per (user, notifier key)
    followedTopics: map<(UserId, Key), bool>,
    // messageboard_notifications_for_followed_topics: per (user, messageboard, notifier key)
    boardFollowedTopics: map<(UserId, BoardId, Key), bool>,
    // notifications_for_private_topics: per (user, notifier key)
    privateTopics: map<(UserId, Key), bool>)

  /** No user has set anything. */
  const NoSettings := Settings(map[], map[], map[])

  function Lookup<K>(m: map<K, bool>, k: K): (r: Option<bool>)
    ensures r.Some? <==> k in m
    ensures r.Some? ==> r.value == m[k]
  {
    if k in m then Some(m[k]) else None
  }

  /** The override sources that apply to a scope, most specific first. */
  function Sources(s: Settings, user: UserId, key: Key, scope: Scope): seq<Option<bool>>
  {
    match scope
    case FollowedTopic(board) =>
      [Lookup(s.boardFollowedTopics, (user, board, key)), Lookup(s.followedTopics, (user, key))]
    case PrivateTopic =>
      [Lookup(s.privateTopics, (user, key))]
  }

  /** The first source that holds a value, or the default when none does. */
  function FirstPresent(sources: seq<Option<bool>>, default: bool): (r: bool)
    ensures (forall i :: 0 <= i < |sources| ==> sources[i].None?) ==> r == default
    ensures forall i :: (0 <= i < |sources| && sources[i].Some? &&
                         (forall j :: 0 <= j < i ==> sources[j].None?)) ==> r == sources[i].value
  {
    if sources == [] then default
    else if sources[0].Some? then sources[0].value
    else FirstPresent(sources[1..], default)
  }

  /**
   * The resolved preference: the messageboard override if there is one, else
   * the user's global setting for followed topics; for a private topic, the
   * user's global setting for private topics; else enabled.
   */
  function Resolved(s: Settings, user: UserId, key: Key, scope: Scope): (r: bool)
    ensures scope.FollowedTopic? && (user, scope.board, key) in s.boardFollowedTopics ==>
              r == s.boardFollowedTopics[(user, scope.board, key)]
    ensures scope.FollowedTopic? && (user, scope.board, key) !in s.boardFollowedTopics &&
            (user, key) in s.followedTopics ==>
              r == s.followedTopics[(user, key)]
    ensures scope.FollowedTopic? && (user, scope.board, key) !in s.boardFollowedTopics &&
            (user, key) !in s.followedTopics ==>
              r == DefaultEnabled
    ensures scope.PrivateTopic? ==>
              r == if (user, key) in s.privateTopics then s.privateTopics[(user, key)] else DefaultEnabled
  {
    var sources := Sources(s, user, key, scope);
    assert scope.FollowedTopic? ==> sources[0] == Lookup(s.boardFollowedTopics, (user, scope.board, key))
                                    && sources[1] == Lookup(s.followedTopics, (user, key));
    FirstPresent(sources, DefaultEnabled)
  }

  /** A user with no settings at all gets notifications, through every notifier and in every scope. */
  lemma NoSettingsMeansEnabled(user: UserId, key: Key, scope: Scope)
    ensures Resolved(NoSettings, user, key, scope)
  {
  }

  /**
   * Preferences are per notifier key: writing a row for one key, in any of the
   * three tables, leaves the resolution for every other key as it was.
   */
  lemma OtherKeysIndependent(s: Settings, user: UserId, key: Key, scope: Scope,
                             u: UserId, b: BoardId, other: Key, v: bool)
    requires other != key
    ensures Resolved(s.(followedTopics := s.followedTopics[(u, other) := v]), user, key, scope)
            == Resolved(s, user, key, scope)
    ensures Resolved(s.(boardFollowedTopics := s.boardFollowedTopics[(u, b, other) := v]), user, key, scope)
            == Resolved(s, user, key, scope)
    ensures Resolved(s.(privateTopics := s.privateTopics[(u, other) := v]), user, key, scope)
            == Resolved(s, user, key, scope)
  {
  }

  /** A messageboard override wins over the global setting, whatever the latter says. */
  lemma BoardOverrideWins(s: Settings, user: UserId, board: BoardId, key: Key, v: bool)
    ensures Resolved(s.(boardFollowedTopics := s.boardFollowedTopics[(user, board, key) := v]),
                     user, key, FollowedTopic(board)) == v
  {
  }

  /** A messageboard override applies to that messageboard only. */
  lemma BoardOverrideIsLocal(s: Settings, user: UserId, board: BoardId, key: Key, v: bool, other: BoardId)
    requires other != board
    ensures Resolved(s.(boardFollowedTopics := s.boardFollowedTopics[(user, board, key) := v]),
                     user, key, FollowedTopic(other))
            == Resolved(s, user, key, FollowedTopic(other))
  {
  }
}
