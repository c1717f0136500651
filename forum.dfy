/**
 * The forum's stored state that the notification core changes in place: the
 * "already notified" ledger, the registered notifiers' delivery logs, the
 * private posts table and the private-topic read markers; and the commands
 * that change it.
 */
module Forum {
  import opened Records
  import opened Preferences
  import opened FanOut
  import opened PrivatePosts

  class Forum {
    /** (user, topic) rows: the user follows the public topic. */
    var follows: set<(UserId, TopicId)>
    /** (user, private topic) rows: the user takes part in the private conversation. */
    var members: set<(UserId, TopicId)>
    var settings: Settings
    /** The "already notified" ledger. */
    var ledger: set<Entry>
    /** The notifier registry, in registration order. */
    var notifiers: seq<Notifier>
    var privatePosts: seq<PrivatePost>
    var readStates: ReadStates

    /** Every notifier's delivery logs agree with the ledger. */
    ghost predicate Valid()
      reads this
    {
      Consistent(State(ledger, notifiers))
    }

    /** The fan-out part of the state. */
    function FanOutState(): State
      reads this
    {
      State(ledger, notifiers)
    }

    constructor (follows: set<(UserId, TopicId)>, members: set<(UserId, TopicId)>, settings: Settings, keys: seq<Key>)
      ensures Valid()
      ensures this.follows == follows && this.members == members && this.settings == settings
      ensures ledger == {} && notifiers == Registry(keys)
      ensures privatePosts == [] && readStates == map[]
    {
      RegistryConsistent(keys);
      this.follows := follows;
      this.members := members;
      this.settings := settings;
      ledger := {};
      notifiers := Registry(keys);
      privatePosts := [];
      readStates := map[];
    }

    /**
     * Records that `user` has been notified of the post, unless that is
     * already recorded; answers whether a new row was created.
     */
    method CreateFromPostAndUser(kind: Kind, post: PostId, user: UserId) returns (created: bool)
      requires Valid()
      modifies this`ledger
      ensures Valid()
      ensures created <==> Entry(kind, post, user) !in old(ledger)
      ensures ledger == old(ledger) + {Entry(kind, post, user)}
    {
      created := Entry(kind, post, user) !in ledger;
      if created {
        ConsistentUnderLargerLedger(FanOutState(), ledger + {Entry(kind, post, user)});
        ledger := ledger + {Entry(kind, post, user)};
      }
    }

    /**
     * Inserts a ledger row for each of `users` and the post; answers the users
     * for whom the insert created a new row.
     */
    method RecordNotified(kind: Kind, post: PostId, users: set<UserId>) returns (newUsers: set<UserId>)
      requires Valid()
      modifies this`ledger
      ensures Valid()
      ensures ledger == old(ledger) + Entries(kind, post, users)
      ensures forall u :: u in newUsers <==> u in users && Entry(kind, post, u) !in old(ledger)
    {
      newUsers := {};
      var rest := users;
      while rest != {}
        invariant Valid()
        invariant rest <= users
        invariant ledger == old(ledger) + Entries(kind, post, users - rest)
        invariant forall u :: u in newUsers <==> u in users - rest && Entry(kind, post, u) !in old(ledger)
        decreases rest
      {
        var u :| u in rest;
        var created := CreateFromPostAndUser(kind, post, u);
        if created {
          newUsers := newUsers + {u};
        }
        rest := rest - {u};
      }
    }

    /**
     * Calls each notifier, in registry order, with those of its targets that
     * are among `newUsers`. This is the second step of `Dispatch` only: on its
     * own it can deliver to users the ledger does not hold, so it does not keep
     * `Valid()`; `Dispatch` restores it with `RunKeepsConsistent`.
     */
    method DeliverToNotifiers(kind: Kind, post: PostId, targets: seq<set<UserId>>, newUsers: set<UserId>)
      requires |targets| == |notifiers|
      modifies this`notifiers
      ensures |notifiers| == |old(notifiers)|
      ensures forall i :: 0 <= i < |notifiers| ==>
                notifiers[i] == Dispatched(old(notifiers)[i], kind, post, targets[i] * newUsers)
    {
      for i := 0 to |notifiers|
        invariant |notifiers| == |old(notifiers)|
        invariant forall j :: 0 <= j < i ==>
                    notifiers[j] == Dispatched(old(notifiers)[j], kind, post, targets[j] * newUsers)
        invariant forall j :: i <= j < |notifiers| ==> notifiers[j] == old(notifiers)[j]
      {
        var users := targets[i] * newUsers;
        if users != {} {
          notifiers := notifiers[i := Deliver(notifiers[i], kind, Delivery(post, users))];
        }
      }
    }

    /**
     * One fan-out run for a post with the given targets, one set per
     * registered notifier: insert every targeted user into the ledger, then
     * call each notifier with those of its targets the insert newly recorded.
     */
    method Dispatch(kind: Kind, post: PostId, targets: seq<set<UserId>>)
      requires Valid() && |targets| == |notifiers|
      modifies this`ledger, this`notifiers
      ensures Valid()
      ensures FanOutState() == Run(old(FanOutState()), kind, post, targets)
    {
      ghost var st := FanOutState();
      var all := UnionOfTargets(targets);
      var newUsers := RecordNotified(kind, post, all);
      assert newUsers == Fresh(st.ledger, kind, post, targets);
      DeliverToNotifiers(kind, post, targets, newUsers);
      ghost var r := Run(st, kind, post, targets);
      assert notifiers == r.notifiers;
      RunKeepsConsistent(st, kind, post, targets);
    }

    /** NotifyFollowingUsers#run: the fan-out of a new post to the followers of its topic. */
    method NotifyFollowingUsers(post: Post)
      requires Valid()
      modifies this`ledger, this`notifiers
      ensures Valid()
      ensures FanOutState() ==
              Run(old(FanOutState()), OfTopic, post.id, old(FollowerTargets(follows, settings, ledger, post, notifiers)))
    {
      var targets := FollowerTargets(follows, settings, ledger, post, notifiers);
      Dispatch(OfTopic, post.id, targets);
    }

    /** NotifyPrivateTopicUsers#run: the fan-out of a new private post to the members of its private topic. */
    method NotifyPrivateTopicUsers(post: PrivatePost)
      requires Valid()
      modifies this`ledger, this`notifiers
      ensures Valid()
      ensures FanOutState() ==
              Run(old(FanOutState()), OfPrivateTopic, post.id, old(PrivateTargets(members, settings, ledger, post, notifiers)))
    {
      var targets := PrivateTargets(members, settings, ledger, post, notifiers);
      Dispatch(OfPrivateTopic, post.id, targets);
    }

    /** Saving a new private post stores it and runs the private-topic fan-out for it, once. */
    method CreatePrivatePost(post: PrivatePost)
      requires Valid()
      modifies this`privatePosts, this`ledger, this`notifiers
      ensures Valid()
      ensures privatePosts == old(privatePosts) + [post]
      ensures FanOutState() ==
              Run(old(FanOutState()), OfPrivateTopic, post.id, old(PrivateTargets(members, settings, ledger, post, notifiers)))
    {
      privatePosts := privatePosts + [post];
      NotifyPrivateTopicUsers(post);
    }

    /**
     * PrivatePost#mark_as_unread: rewinds `user`'s read marker for the post's
     * private topic to just before the post.
     */
    method MarkAsUnread(post: PrivatePost, user: UserId)
      requires Valid()
      modifies this`readStates
      ensures Valid()
      ensures readStates == MarkedUnread(old(readStates), privatePosts, post, user)
    {
      var key := (post.topic, user);
      var previous := Previous(privatePosts, post);
      if previous.None? {
        if key in readStates {
          readStates := readStates - {key};
        }
      } else {
        readStates := readStates[key := previous.value.createdAt];
      }
    }
  }

  /** Every user some notifier targets, gathered notifier by notifier. */
  method UnionOfTargets(targets: seq<set<UserId>>) returns (all: set<UserId>)
    ensures all == AllTargets(targets)
  {
    all := {};
    for i := 0 to |targets|
      invariant all == AllTargets(targets[..i])
    {
      assert targets[..i + 1][..i] == targets[..i];
      all := all + targets[i];
    }
    assert targets[..|targets|] == targets;
  }

  /**
   * The single-notifier run example, with targeted_users stubbed to return the
   * same user on every call: the first run changes the notifier's log, the
   * second does not.
   */
  method SingleNotifierRunsOnce(post: PostId, user: UserId) returns (firstChanged: bool, secondChanged: bool)
    ensures firstChanged && !secondChanged
  {
    var forum := new Forum({}, {}, NoSettings, [MockKey]);
    var log0 := forum.notifiers[0].newPosts;
    OneNotifierOneUser(post, user);
    forum.Dispatch(OfTopic, post, [{user}]);
    var log1 := forum.notifiers[0].newPosts;
    forum.Dispatch(OfTopic, post, [{user}]);
    var log2 := forum.notifiers[0].newPosts;
    firstChanged, secondChanged := log1 != log0, log2 != log1;
  }

  /**
   * The multi-notifier run example: two notifiers and one targeted user take
   * the per-notifier counts from [0, 0] to [1, 1], and a second run keeps them.
   */
  method TwoNotifiersRunOnce(post: PostId, user: UserId) returns (before: seq<nat>, first: seq<nat>, second: seq<nat>)
    ensures before == [0, 0] && first == [1, 1] && second == [1, 1]
  {
    var forum := new Forum({}, {}, NoSettings, [MockKey, MockKey]);
    before := [UsersNotified(forum.notifiers[0].newPosts), UsersNotified(forum.notifiers[1].newPosts)];
    TwoNotifiersOneUser(post, user);
    forum.Dispatch(OfTopic, post, [{user}, {user}]);
    first := [UsersNotified(forum.notifiers[0].newPosts), UsersNotified(forum.notifiers[1].newPosts)];
    forum.Dispatch(OfTopic, post, [{user}, {user}]);
    second := [UsersNotified(forum.notifiers[0].newPosts), UsersNotified(forum.notifiers[1].newPosts)];
  }
}
