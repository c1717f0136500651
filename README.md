# Thredded notification fan-out and private-post read state, in Dafny

This project models the notification core of Thredded, a forum engine that is embedded in a Rails application. Two pieces of behaviour are modelled.

- **Follower fan-out** (`NotifyFollowingUsers`, and `NotifyPrivateTopicUsers` for private topics). When a post is created, the engine works out which users each registered notifier should tell about it. A notifier is a delivery channel with a key, such as the e-mail notifier with key `"email"` or the test double with key `"mock"`. The candidates are:
  - for a public topic, the topic's followers;
  - for a private topic, its members.

  From the candidates it removes the post's author, users already in the "already notified" ledger, and users whose preference for that notifier's key is off. Preferences come in three layers:
  - a per-messageboard override;
  - a global setting for followed topics;
  - a global setting for private topics.

  A key with no setting is enabled. A run records every targeted user in the ledger. Then, in registry order, each notifier with at least one target that the ledger insert newly recorded is called once, with those targets. A notifier with no such target is not called. Repeating a run therefore notifies no one twice.

- **Private-post positioning and read state** (`PrivatePost#page`, `PrivatePost#mark_as_unread`).
  - A post's page: the posts of its topic are ordered by creation time, ties broken by id, and the page is the ceiling of the post's 1-based position divided by the page size.
  - Marking a post unread rewinds the user's read marker for the topic to the creation time of the preceding post. If the post is the first of its topic, the marker is deleted. If there is no marker and the post is not the first, one is created.
  - Saving a new private post runs the private-topic fan-out for it.

Modules:

- `Records`: identifiers, `Post` and `PrivatePost`.
- `Wrappers`: `Option`.
- `Preferences`: the resolver. It takes the first present value from an ordered list of override sources.
- `PrivatePosts`: ordering, `Page`, `Previous` and `MarkedUnread`.
- `FanOut`: the targeted-user filters, the ledger, the pure specification `Run` of one fan-out run, and its invariant `Consistent` (every delivery is recorded in the ledger, and no post is delivered twice to a user through one notifier).
- `Forum`: a class holding the stored state that the commands change in place. That state is the follow and membership rows, the preference tables, the ledger, the ordered notifier registry with each notifier's delivery log, the private posts table and the read markers.

The class's methods are proved against `Run` and `MarkedUnread`, and the properties the tests assert are proved as lemmas about those functions.

The implementation files (`app/commands/thredded/notify_following_users.rb`, `notify_private_topic_users.rb`, `app/models/thredded/private_post.rb` and the user-post-notification model) are not part of this model. The public fan-out, the ledger and the private-post positioning and read state are taken from the two test files that pin them down. The private-topic fan-out is only pinned as being invoked once when a private post is saved. The e-mail notifier's key is the constant `EmailKey`, from `app/notifiers/thredded/email_notifier.rb:13-15`.

Where the tests leave a choice open, the model takes the following:

- Preference precedence is "most specific wins": the messageboard override, then the global setting, then enabled.
- Posts with equal creation times are ordered by id.
- The tests do not exercise the private-topic fan-out's filter or the private-topics setting. The model gives them the shape of the public filter: the topic's members, minus the author, minus users already in the ledger, checked against the private-topics setting (else enabled).
- `run` writes the ledger before it calls the notifiers. The test at `spec/commands/thredded/notify_following_users_spec.rb:122` stubs `targeted_users` to keep returning the same user, and still expects the second run to notify nobody. So the run itself must be gated by the ledger, whatever the targeted sets say, and `Forum.Forum.Dispatch` takes those sets as a parameter to capture exactly that.

## Model

| member | source | states |
|---|---|---|
| Preferences.Resolved | spec/commands/thredded/notify_following_users_spec.rb:43-113 | A messageboard override decides when it is present. Otherwise the global followed-topics setting decides. With neither, the value is enabled. For private topics, a case the tests do not exercise, the model lets the private-topics setting decide, else enabled. |
| Preferences.FirstPresent | spec/commands/thredded/notify_following_users_spec.rb:64-113 | The result is the value of the earliest source that holds one, or the default when none does. |
| Preferences.NoSettingsMeansEnabled | spec/commands/thredded/notify_following_users_spec.rb:55-61 | A user with no preference rows is enabled for every key and every scope. |
| Preferences.OtherKeysIndependent | spec/commands/thredded/notify_following_users_spec.rb:43-113 | Writing a row, in any table, for one key leaves the resolution for every other key unchanged. |
| Preferences.BoardOverrideWins | spec/commands/thredded/notify_following_users_spec.rb:64-88 | An override for (user, messageboard, key) decides that user's resolution on that board, whatever the global row says. |
| Preferences.BoardOverrideIsLocal | spec/commands/thredded/notify_following_users_spec.rb:64-70 | An override for one messageboard does not change the resolution on any other messageboard. |
| FanOut.TargetedUsers | spec/commands/thredded/notify_following_users_spec.rb:7-41 | A user is targeted exactly when they follow the topic, are not the author, have no ledger row for the post, and have the key enabled for the post's messageboard. |
| FanOut.PrivateTargetedUsers | spec/models/thredded/private_post_spec.rb:12-18 | The fan-out is only pinned as invoked on save; its filter is inferred from the public one. A user is targeted exactly when they are a member of the private topic, are not the author, have no ledger row for the private post, and have the key enabled for private topics. |
| FanOut.EnabledFollowerTargeted | spec/commands/thredded/notify_following_users_spec.rb:24-31 | A follower whose global row for the key is `true` (with no board override) is targeted. |
| FanOut.NotifiedFollowerExcluded | spec/commands/thredded/notify_following_users_spec.rb:33-36 | Once the ledger holds (post, follower), the follower is not targeted, whatever their preferences. |
| FanOut.PosterExcluded | spec/commands/thredded/notify_following_users_spec.rb:38-41 | The author is not targeted, even when following the topic. |
| FanOut.EmailOffMockOn | spec/commands/thredded/notify_following_users_spec.rb:43-62 | With only the global `email` row off, the follower is excluded for `email` and included for `mock`. |
| FanOut.GlobalDisableIsPerKey | spec/commands/thredded/notify_following_users_spec.rb:90-113 | When no messageboard override exists for that key, turning a key off globally excludes the follower for that key. Every other key's targeted set stays as it was. |
| FanOut.BoardDisableIsPerKey | spec/commands/thredded/notify_following_users_spec.rb:64-88 | Turning a key off for the post's messageboard excludes the follower for that key. Every other key's targeted set stays as it was. |
| FanOut.Followers | spec/commands/thredded/notify_following_users_spec.rb:10-14 | The topic's followers are exactly the users with a follow row for that topic. |
| FanOut.Members | spec/models/thredded/private_post_spec.rb:7-10 | The private topic's users are exactly the users with a membership row for that topic. |
| FanOut.FollowerTargets | spec/commands/thredded/notify_following_users_spec.rb:143-155 | One targeted set per registered notifier, in registry order: entry i is the targeted followers for notifier i's key. |
| FanOut.PrivateTargets | spec/models/thredded/private_post_spec.rb:12-18 | One targeted set per registered notifier, in registry order: entry i is the targeted private-topic members for notifier i's key. |
| FanOut.Fresh | spec/commands/thredded/notify_following_users_spec.rb:122-140 | The users for whom the ledger insert creates a row are exactly those some notifier targets who had no ledger row for the post. Each of them is in the ledger after the insert. |
| FanOut.AllTargets | spec/commands/thredded/notify_following_users_spec.rb:149-155 | A user is in the union exactly when some notifier targets them. |
| FanOut.Registry | spec/commands/thredded/notify_following_users_spec.rb:129-147 | The registry set up from a list of keys has one notifier per key, in the given order, each with empty logs. |
| FanOut.Deliver | app/notifiers/thredded/email_notifier.rb:17-23 | A notifier's `new_post` or `new_private_post` call appends the delivery to that kind's log. It keeps the key and leaves the other kind's log unchanged. |
| FanOut.Dispatched | spec/commands/thredded/notify_following_users_spec.rb:143-155 | A notifier that a run asks to deliver to no one is left unchanged. Otherwise exactly one delivery of the post to those users is appended to that kind's log, and the other kind's log is unchanged. |
| FanOut.Run | spec/commands/thredded/notify_following_users_spec.rb:116-161 | The pure specification of one run. Its `ensures` restate its body: the ledger gains every targeted user, and each notifier is `Dispatched` with its targets that were not yet ledgered. What a run means is stated by RunIdempotent, RunKeepsConsistent, RunDeliversFreshTargetsOnce and AtMostOnce. |
| FanOut.LogConsistent | spec/commands/thredded/notify_following_users_spec.rb:137-140 | (predicate, no contract) The invariant for one log: every delivered user has a ledger row for that post, and no two deliveries of one post share a user. |
| FanOut.Consistent | spec/commands/thredded/notify_following_users_spec.rb:137-140 | (predicate, no contract) The fan-out invariant: both logs of every notifier are `LogConsistent` with the ledger. Its consequences are stated by AtMostOnce, and its preservation by RunKeepsConsistent and ConsistentUnderLargerLedger. |
| FanOut.RegistryConsistent | spec/commands/thredded/notify_following_users_spec.rb:129-147 | A registry that has delivered nothing is consistent with the empty ledger. |
| FanOut.ConsistentUnderLargerLedger | spec/commands/thredded/notify_following_users_spec.rb:33-36 | Adding ledger rows keeps the invariant. |
| FanOut.UsersNotified | spec/commands/thredded/notify_following_users_spec.rb:149-151 | The count of notified users over a log is zero exactly when every delivery in it names nobody, and it is at least the size of each delivery. |
| FanOut.PrivatePosterNeverNotified | spec/models/thredded/private_post_spec.rb:12-18 | For the inferred private-topic filter (the fan-out itself is pinned only as invoked on save): a private-topic fan-out run never adds a delivery of the post to its author, through any notifier. |
| FanOut.RunIdempotent | spec/commands/thredded/notify_following_users_spec.rb:116-140 | Running twice with the same targets, even targets that ignore the ledger, gives the same ledger and logs as running once. |
| FanOut.RunKeepsConsistent | spec/commands/thredded/notify_following_users_spec.rb:137-140 | A run preserves the invariant that every delivered user is ledgered and that two deliveries of one post share no user. |
| FanOut.AtMostOnce | spec/commands/thredded/notify_following_users_spec.rb:156-160 | In a consistent log, a user is delivered a given post at most once, and only if the ledger records it. |
| FanOut.RunDeliversFreshTargetsOnce | spec/commands/thredded/notify_following_users_spec.rb:152-155 | In one run, notifier i's count of deliveries of the post to a user grows by exactly one if it targets that user and the user had no ledger row, and by zero otherwise. |
| FanOut.PosterNeverNotified | spec/commands/thredded/notify_following_users_spec.rb:38-41 | A follower fan-out run never adds a delivery of the post to its author, through any notifier. |
| FanOut.OneNotifierOneUser | spec/commands/thredded/notify_following_users_spec.rb:129-140 | With one fresh notifier and one targeted user, the first run makes exactly one delivery and a second run changes nothing. |
| FanOut.TwoNotifiersOneUser | spec/commands/thredded/notify_following_users_spec.rb:143-161 | With two fresh notifiers and one targeted user, each notifier gets one delivery of one user, and a second run changes nothing. |
| Forum.Forum.constructor | spec/commands/thredded/notify_following_users_spec.rb:129-147 | A new forum holds the given follow rows, membership rows and settings, an empty ledger, the registry for the given keys, no private posts and no read markers. It satisfies the invariant. |
| Forum.Forum.CreateFromPostAndUser | spec/commands/thredded/notify_following_users_spec.rb:33-36 | The insert-if-absent answers `true` exactly when (post, user) was not yet recorded, and afterwards the row is present. The invariant is kept. |
| Forum.Forum.RecordNotified | spec/commands/thredded/notify_following_users_spec.rb:122-140 | The ledger gains rows for all the given users. The answer is exactly those that were new. The invariant is kept. |
| Forum.Forum.DeliverToNotifiers | spec/commands/thredded/notify_following_users_spec.rb:143-155 | Each notifier, in registry order, is called with its targets among the new users, and only if there are any. This is a step of `Dispatch` only, and on its own it does not keep the invariant. |
| Forum.Forum.Dispatch | spec/commands/thredded/notify_following_users_spec.rb:116-161 | The stored ledger and logs become `Run` of the old ones, and the consistency invariant is kept. |
| Forum.Forum.NotifyFollowingUsers | spec/commands/thredded/notify_following_users_spec.rb:116-127 | A run with each notifier's targeted followers, computed on the state before the run. |
| Forum.Forum.NotifyPrivateTopicUsers | spec/models/thredded/private_post_spec.rb:12-18 | Invoked on save. A run with each notifier's targeted private-topic members, computed on the state before the run. |
| Forum.Forum.CreatePrivatePost | spec/models/thredded/private_post_spec.rb:12-18 | Saving appends the post to the table and applies the private-topic fan-out for it exactly once. |
| Forum.Forum.MarkAsUnread | spec/models/thredded/private_post_spec.rb:61-131 | The read markers become `MarkedUnread` of the old markers, so the marker moves to the preceding post's time. The invariant is kept. |
| Forum.UnionOfTargets | spec/commands/thredded/notify_following_users_spec.rb:149-155 | Gathering the targets notifier by notifier yields exactly their union. |
| Forum.SingleNotifierRunsOnce | spec/commands/thredded/notify_following_users_spec.rb:129-140 | With one notifier and the target list stubbed to one user, the first run changes the notifier's log and the second does not. |
| Forum.TwoNotifiersRunOnce | spec/commands/thredded/notify_following_users_spec.rb:143-161 | The per-notifier counts go from [0, 0] to [1, 1] on the first run and stay [1, 1] on the second. |
| PrivatePosts.Before | spec/models/thredded/private_post_spec.rb:50-58 | (predicate, no contract) Thread order: by creation time, with ties broken by id. |
| PrivatePosts.BeforeIsStrictTotalOrder | spec/models/thredded/private_post_spec.rb:50-58 | Thread order is irreflexive and transitive, and any two posts with different ids are ordered one way or the other. |
| PrivatePosts.CountBefore | spec/models/thredded/private_post_spec.rb:21-58 | The count of earlier posts is at most the table size. It is zero exactly when no post of the topic comes before the given one. |
| PrivatePosts.Page | spec/models/thredded/private_post_spec.rb:21-48 | The page r is at least 1, and (r-1)·perPage < position ≤ r·perPage, where position is the post's 1-based place in its topic. |
| PrivatePosts.Previous | spec/models/thredded/private_post_spec.rb:95-101 | The result is a post of the same topic before the given one, and no such post lies between them. The result is none exactly when no post of the topic comes before. |
| PrivatePosts.CountBeforeIgnoresStorageOrder | spec/models/thredded/private_post_spec.rb:50-58 | A post's position is the same for any ordering of the table's rows: it depends on creation time and id, not on storage order. |
| PrivatePosts.PageIgnoresStorageOrder | spec/models/thredded/private_post_spec.rb:50-58 | A post's page is the same for any ordering of the table's rows. |
| PrivatePosts.CountBeforeMonotone | spec/models/thredded/private_post_spec.rb:33-58 | A later post of the same topic has a position at least as large, and strictly larger when the earlier post is stored. |
| PrivatePosts.PageMonotone | spec/models/thredded/private_post_spec.rb:33-58 | A later post of the same topic is never on an earlier page. |
| PrivatePosts.FirstPostHasNoPrevious | spec/models/thredded/private_post_spec.rb:87-93 | A post has no predecessor exactly when it is first in its topic. |
| PrivatePosts.PreviousIsOnePositionEarlier | spec/models/thredded/private_post_spec.rb:95-101 | With one row per id, the predecessor is exactly one position before the post. |
| PrivatePosts.MarkedUnread | spec/models/thredded/private_post_spec.rb:61-131 | The marker for (topic, user) exists afterwards exactly when the post is not first. It is then set to the creation time of the latest earlier post of the topic: the time of some earlier post, and no earlier post's time exceeds it. That time is not later than the post's own. The marker count drops by one, rises by one or stays the same accordingly. Every other marker is unchanged. |
| PrivatePosts.PageOfSolePost | spec/models/thredded/private_post_spec.rb:30-32 | A topic's sole post is on page 1. |
| PrivatePosts.PageAfterOneEarlierPost | spec/models/thredded/private_post_spec.rb:33-48 | With one earlier post, the post is on page 2 at one post per page and on page 1 at two. |
| PrivatePosts.PageByCreationTimeNotId | spec/models/thredded/private_post_spec.rb:50-58 | Post 100, created after posts 101 and 99, is on page 3 at one post per page. |
| PrivatePosts.MarkAsUnreadExamples | spec/models/thredded/private_post_spec.rb:87-131 | The test examples:<br>• first post with a marker: the marker is removed;<br>• third post: the marker moves to the second post's time, from the third's or from the first's;<br>• no marker and the first post: nothing changes;<br>• no marker and the third post: a marker is created. |

## Left out

- E-mail delivery (`PostMailer`, `PrivateTopicMailer`, `deliver_now`), mapping users to addresses, `human_name` and I18n are not modelled. A notifier is modelled only as its key and a log of the delivery calls made to it.
- The e-mail notifier's failure at construction when `email_from` is blank is not modelled. It is configuration, not fan-out logic.
- Concurrency and the storage-level uniqueness constraint behind the ledger are not modelled. The ledger is a set with a sequential insert-if-absent.
- Delivery errors and crashes part-way through a run are not modelled. The model is failure-free, so the order of ledger writes relative to notifier calls within a run cannot be observed.
- The per-topic-follow preference layer is not modelled. Only the messageboard and global layers appear in the tests.
- Real timestamps and time travel: `created_at` and `read_at` are integers.
- A delivery's users are a set, not an ordered list. The order in which a notifier receives the users of one call is not modelled.
- Page: requires a positive page size. The tests always pass a positive page size, and a zero size is excluded.
- Notifier registry replacement (`Thredded.notifiers = …`) is modelled as the key list passed to the `Forum` constructor, not as a global that can change during a run.
- Database migrations, slug de-duplication, view rendering, browser flows and the test environment are not part of this model.
