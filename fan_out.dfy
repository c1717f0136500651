/**
 * The notification fan-out for a new post: which users each registered
 * notifier should be told about, the "already notified" ledger that makes a
 * run safe to repeat, and the effect of one run on the ledger and on each
 * notifier's record of the deliveries it was asked to make.
 */
module FanOut {
  import opened Records
  import opened Preferences

  /** Public-topic posts and private posts are separate tables: a ledger row says which. */
  datatype Kind = OfTopic | OfPrivateTopic

  /** A ledger row: `user` has been notified of post `post`. */
  datatype Entry = Entry(kind: Kind, post: PostId, user: UserId)

  /** One call of a notifier's delivery operation: post `post` to the users `users`. */
  datatype Delivery = Delivery(post: PostId, users: set<UserId>)

  /**
   * A registered notifier: its key and the deliveries it has been asked to
   * make, for new posts of followed topics and for new private posts.
   */
  datatype Notifier = Notifier(key: Key, newPosts: seq<Delivery>, newPrivatePosts: seq<Delivery>)

  /** What a run reads and writes: the ledger and the ordered notifier registry. */
  datatype State = State(ledger: set<Entry>, notifiers: seq<Notifier>)

  /** A registry of notifiers with the given keys that have delivered nothing yet. */
  function Registry(keys: seq<Key>): (ns: seq<Notifier>)
    ensures |ns| == |keys|
    ensures forall i :: 0 <= i < |ns| ==> ns[i] == Notifier(keys[i], [], [])
  {
    seq(|keys|, i requires 0 <= i < |keys| => Notifier(keys[i], [], []))
  }

  /** The users following `topic`, out of the (user, topic) follow rows. */
  function Followers(follows: set<(UserId, TopicId)>, topic: TopicId): (r: set<UserId>)
    ensures forall u :: u in r <==> (u, topic) in follows
  {
    set f | f in follows && f.1 == topic :: f.0
  }

  /** The members of private topic `topic`, out of the (user, topic) membership rows. */
  function Members(members: set<(UserId, TopicId)>, topic: TopicId): (r: set<UserId>)
    ensures forall u :: u in r <==> (u, topic) in members
  {
    set m | m in members && m.1 == topic :: m.0
  }

  /**
   * The users notifier `key` should tell about a post of a followed topic:
   * its followers, except the author, those already in the ledger for the
   * post, and those whose resolved preference for `key` is off.
   */
  function TargetedUsers(follows: set<(UserId, TopicId)>, settings: Settings, ledger: set<Entry>,
                         post: Post, key: Key): (r: set<UserId>)
    ensures forall u :: u in r <==>
      && (u, post.topic) in follows
      && u != post.author
      && Entry(OfTopic, post.id, u) !in ledger
      && Resolved(settings, u, key, FollowedTopic(post.board))
  {
    set u | u in Followers(follows, post.topic) && u != post.author &&
            Entry(OfTopic, post.id, u) !in ledger && Resolved(settings, u, key, FollowedTopic(post.board))
  }

  /** The same for a private post: the private topic's members, filtered by the private-topic preference. */
  function PrivateTargetedUsers(members: set<(UserId, TopicId)>, settings: Settings, ledger: set<Entry>,
                                post: PrivatePost, key: Key): (r: set<UserId>)
    ensures forall u :: u in r <==>
      && (u, post.topic) in members
      && u != post.author
      && Entry(OfPrivateTopic, post.id, u) !in ledger
      && Resolved(settings, u, key, PrivateTopic)
  {
    set u | u in Members(members, post.topic) && u != post.author &&
            Entry(OfPrivateTopic, post.id, u) !in ledger && Resolved(settings, u, key, PrivateTopic)
  }

  /** What each registered notifier targets for a post of a followed topic, in registry order. */
  function FollowerTargets(follows: set<(UserId, TopicId)>, settings: Settings, ledger: set<Entry>,
                           post: Post, ns: seq<Notifier>): (r: seq<set<UserId>>)
    ensures |r| == |ns|
    ensures forall i :: 0 <= i < |ns| ==> r[i] == TargetedUsers(follows, settings, ledger, post, ns[i].key)
  {
    seq(|ns|, i requires 0 <= i < |ns| => TargetedUsers(follows, settings, ledger, post, ns[i].key))
  }

  /** What each registered notifier targets for a private post, in registry order. */
  function PrivateTargets(members: set<(UserId, TopicId)>, settings: Settings, ledger: set<Entry>,
                          post: PrivatePost, ns: seq<Notifier>): (r: seq<set<UserId>>)
    ensures |r| == |ns|
    ensures forall i :: 0 <= i < |ns| ==> r[i] == PrivateTargetedUsers(members, settings, ledger, post, ns[i].key)
  {
    seq(|ns|, i requires 0 <= i < |ns| => PrivateTargetedUsers(members, settings, ledger, post, ns[i].key))
  }

  /** Every user some notifier targets this run. */
  function AllTargets(targets: seq<set<UserId>>): (r: set<UserId>)
    ensures forall u :: u in r <==> exists i :: 0 <= i < |targets| && u in targets[i]
    decreases |targets|
  {
    if targets == [] then {}
    else
      var init := targets[..|targets| - 1];
      assert forall i :: 0 <= i < |init| ==> init[i] == targets[i];
      AllTargets(init) + targets[|targets| - 1]
  }

  /** The ledger rows for `users` and the post. */
  function Entries(kind: Kind, post: PostId, users: set<UserId>): (r: set<Entry>)
    ensures forall e :: e in r <==> e.kind == kind && e.post == post && e.user in users
  {
    set u | u in users :: Entry(kind, post, u)
  }

  /** The targeted users for whom the ledger insert creates a new row: those not notified before. */
  function Fresh(ledger: set<Entry>, kind: Kind, post: PostId, targets: seq<set<UserId>>): (r: set<UserId>)
    ensures forall u :: u in r <==>
              (exists i :: 0 <= i < |targets| && u in targets[i]) && Entry(kind, post, u) !in ledger
    ensures forall u :: u in r ==> Entry(kind, post, u) in ledger + Entries(kind, post, AllTargets(targets))
  {
    set u | u in AllTargets(targets) && Entry(kind, post, u) !in ledger
  }

  /** The delivery log of a notifier for one kind of post. */
  function Log(n: Notifier, kind: Kind): seq<Delivery>
  {
    match kind
    case OfTopic => n.newPosts
    case OfPrivateTopic => n.newPrivatePosts
  }

  /** A notifier's delivery operation (`new_post`, `new_private_post`): the call is added to its log for that kind of post. */
  function Deliver(n: Notifier, kind: Kind, d: Delivery): (r: Notifier)
    ensures r.key == n.key
    ensures Log(r, kind) == Log(n, kind) + [d]
    ensures forall other :: other != kind ==> Log(r, other) == Log(n, other)
  {
    match kind
    case OfTopic => n.(newPosts := n.newPosts + [d])
    case OfPrivateTopic => n.(newPrivatePosts := n.newPrivatePosts + [d])
  }

  /** The notifier after a run asks it to deliver `post` to `users`; it is not called when `users` is empty. */
  function Dispatched(n: Notifier, kind: Kind, post: PostId, users: set<UserId>): (r: Notifier)
    ensures r.key == n.key
    ensures users == {} ==> r == n
    ensures users != {} ==> Log(r, kind) == Log(n, kind) + [Delivery(post, users)]
    ensures forall other :: other != kind ==> Log(r, other) == Log(n, other)
  {
    if users == {} then n else Deliver(n, kind, Delivery(post, users))
  }

  /**
   * One fan-out run for a post, given what each notifier targets (one set per
   * registered notifier, in registry order). The ledger insert comes first and
   * gates the run: only users it newly records are delivered, each notifier
   * receiving those of them it targets.
   */
  function Run(st: State, kind: Kind, post: PostId, targets: seq<set<UserId>>): (r: State)
    requires |targets| == |st.notifiers|
    ensures r.ledger == st.ledger + Entries(kind, post, AllTargets(targets))
    ensures |r.notifiers| == |st.notifiers|
    ensures forall i :: 0 <= i < |r.notifiers| ==>
              r.notifiers[i] == Dispatched(st.notifiers[i], kind, post, targets[i] * Fresh(st.ledger, kind, post, targets))
  {
    var newUsers := Fresh(st.ledger, kind, post, targets);
    State(st.ledger + Entries(kind, post, AllTargets(targets)),
          seq(|st.notifiers|, i requires 0 <= i < |st.notifiers| =>
                Dispatched(st.notifiers[i], kind, post, targets[i] * newUsers)))
  }

  /** How many deliveries of a log name `user` for post `post`. */
  function TimesNotified(log: seq<Delivery>, post: PostId, user: UserId): nat
  {
    if log == [] then 0
    else
      var last := log[|log| - 1];
      TimesNotified(log[..|log| - 1], post, user) + if last.post == post && user in last.users then 1 else 0
  }

  lemma TimesNotifiedSnoc(log: seq<Delivery>, d: Delivery, post: PostId, user: UserId)
    ensures TimesNotified(log + [d], post, user)
            == TimesNotified(log, post, user) + if d.post == post && user in d.users then 1 else 0
  {
    assert (log + [d])[..|log|] == log;
  }

  /**
   * A log agrees with the ledger: every user it delivered to is recorded for
   * that post, and no two deliveries of the same post share a user.
   */
  ghost predicate LogConsistent(log: seq<Delivery>, ledger: set<Entry>, kind: Kind)
  {
    && (forall j, u :: 0 <= j < |log| && u in log[j].users ==> Entry(kind, log[j].post, u) in ledger)
    && (forall j1, j2 :: 0 <= j1 < j2 < |log| && log[j1].post == log[j2].post ==> log[j1].users !! log[j2].users)
  }

  /** The invariant of the fan-out state: every notifier's logs agree with the ledger. */
  ghost predicate Consistent(st: State)
  {
    forall i :: 0 <= i < |st.notifiers| ==>
      LogConsistent(st.notifiers[i].newPosts, st.ledger, OfTopic) &&
      LogConsistent(st.notifiers[i].newPrivatePosts, st.ledger, OfPrivateTopic)
  }

  /** A registry that has delivered nothing is consistent with the empty ledger. */
  lemma RegistryConsistent(keys: seq<Key>)
    ensures Consistent(State({}, Registry(keys)))
  {
  }

  /** Recording more users in the ledger keeps the state consistent. */
  lemma ConsistentUnderLargerLedger(st: State, ledger: set<Entry>)
    requires Consistent(st) && st.ledger <= ledger
    ensures Consistent(State(ledger, st.notifiers))
  {
  }

  /** In a consistent log each user is delivered each post at most once. */
  lemma {:induction false} AtMostOnce(log: seq<Delivery>, ledger: set<Entry>, kind: Kind, post: PostId, user: UserId)
    requires LogConsistent(log, ledger, kind)
    ensures TimesNotified(log, post, user) <= 1
    ensures TimesNotified(log, post, user) == 1 ==> Entry(kind, post, user) in ledger
    decreases |log|
  {
    if log != [] {
      var init, last := log[..|log| - 1], log[|log| - 1];
      assert log == init + [last];
      assert LogConsistent(init, ledger, kind);
      AtMostOnce(init, ledger, kind, post, user);
      if last.post == post && user in last.users {
        NotInEarlierDeliveries(init, last, post, user, |log| - 1, log);
      }
    }
  }

  /** A user in the last delivery of a post appears in no earlier delivery of it. */
  lemma {:induction false} NotInEarlierDeliveries(init: seq<Delivery>, last: Delivery, post: PostId, user: UserId,
                                                       n: nat, log: seq<Delivery>)
    requires log == init + [last] && n == |init|
    requires last.post == post && user in last.users
    requires forall j1, j2 :: 0 <= j1 < j2 < |log| && log[j1].post == log[j2].post ==> log[j1].users !! log[j2].users
    ensures TimesNotified(init, post, user) == 0
    decreases |init|
  {
    if init != [] {
      var init', d := init[..|init| - 1], init[|init| - 1];
      assert init == init' + [d];
      assert log[|init| - 1] == d && log[n] == last;
      var log' := init' + [last];
      forall j1, j2 | 0 <= j1 < j2 < |log'| && log'[j1].post == log'[j2].post
        ensures log'[j1].users !! log'[j2].users
      {
        var k2 := if j2 == |init'| then n else j2;
        assert log'[j1] == log[j1] && log'[j2] == log[k2];
      }
      NotInEarlierDeliveries(init', last, post, user, |init'|, log');
    }
  }

  lemma {:induction false} LogConsistentDispatched(log: seq<Delivery>, ledger: set<Entry>, kind: Kind, post: PostId,
                                                   users: set<UserId>, ledger': set<Entry>)
    requires LogConsistent(log, ledger, kind)
    requires ledger <= ledger'
    requires forall u :: u in users ==> Entry(kind, post, u) in ledger' && Entry(kind, post, u) !in ledger
    ensures LogConsistent(if users == {} then log else log + [Delivery(post, users)], ledger', kind)
  {
    if users != {} {
      var log' := log + [Delivery(post, users)];
      forall j1, j2 | 0 <= j1 < j2 < |log'| && log'[j1].post == log'[j2].post
        ensures log'[j1].users !! log'[j2].users
      {
        if j2 == |log| {
          forall u | u in log'[j1].users ensures u !in users {
            assert Entry(kind, log[j1].post, u) in ledger;
          }
        }
      }
    }
  }

  /** A run keeps the fan-out state consistent. */
  lemma RunKeepsConsistent(st: State, kind: Kind, post: PostId, targets: seq<set<UserId>>)
    requires |targets| == |st.notifiers|
    requires Consistent(st)
    ensures Consistent(Run(st, kind, post, targets))
  {
    var r := Run(st, kind, post, targets);
    var newUsers := Fresh(st.ledger, kind, post, targets);
    forall i | 0 <= i < |r.notifiers|
      ensures LogConsistent(r.notifiers[i].newPosts, r.ledger, OfTopic)
      ensures LogConsistent(r.notifiers[i].newPrivatePosts, r.ledger, OfPrivateTopic)
    {
      var n, users := st.notifiers[i], targets[i] * newUsers;
      forall u | u in users ensures Entry(kind, post, u) in r.ledger {
        assert u in AllTargets(targets);
      }
      LogConsistentDispatched(Log(n, kind), st.ledger, kind, post, users, r.ledger);
      var other := if kind == OfTopic then OfPrivateTopic else OfTopic;
      LogConsistentDispatched(Log(n, other), st.ledger, other, post, {}, r.ledger);
    }
  }

  /**
   * Repeating a run is harmless: with the same targets (even targets that
   * ignore the ledger), the second run changes neither the ledger nor any
   * notifier's log.
   */
  lemma RunIdempotent(st: State, kind: Kind, post: PostId, targets: seq<set<UserId>>)
    requires |targets| == |st.notifiers|
    ensures Run(Run(st, kind, post, targets), kind, post, targets) == Run(st, kind, post, targets)
  {
    var r := Run(st, kind, post, targets);
    assert Fresh(r.ledger, kind, post, targets) == {};
    var rr := Run(r, kind, post, targets);
    assert rr.notifiers == r.notifiers;
  }

  /**
   * What a run delivers: notifier i is told once about every user it
   * targets who was not yet in the ledger, and about no one else.
   */
  lemma RunDeliversFreshTargetsOnce(st: State, kind: Kind, post: PostId, targets: seq<set<UserId>>,
                                    i: nat, user: UserId)
    requires |targets| == |st.notifiers| && i < |targets|
    ensures var before, after := Log(st.notifiers[i], kind), Log(Run(st, kind, post, targets).notifiers[i], kind);
            TimesNotified(after, post, user) ==
              TimesNotified(before, post, user) +
              if user in targets[i] && Entry(kind, post, user) !in st.ledger then 1 else 0
  {
    var newUsers := Fresh(st.ledger, kind, post, targets);
    var users := targets[i] * newUsers;
    var before := Log(st.notifiers[i], kind);
    if users != {} {
      TimesNotifiedSnoc(before, Delivery(post, users), post, user);
    }
    if user in targets[i] && Entry(kind, post, user) !in st.ledger {
      assert user in AllTargets(targets);
      assert user in users;
    }
  }

  /** A run never tells a notifier about a post's author, for a post of a followed topic. */
  lemma PosterNeverNotified(st: State, follows: set<(UserId, TopicId)>, settings: Settings, post: Post, i: nat)
    requires i < |st.notifiers|
    ensures var targets := FollowerTargets(follows, settings, st.ledger, post, st.notifiers);
            TimesNotified(Log(Run(st, OfTopic, post.id, targets).notifiers[i], OfTopic), post.id, post.author)
            == TimesNotified(Log(st.notifiers[i], OfTopic), post.id, post.author)
  {
    var targets := FollowerTargets(follows, settings, st.ledger, post, st.notifiers);
    RunDeliversFreshTargetsOnce(st, OfTopic, post.id, targets, i, post.author);
  }

  /** Nor about the author of a private post, in a private-topic run. */
  lemma PrivatePosterNeverNotified(st: State, members: set<(UserId, TopicId)>, settings: Settings,
                                   post: PrivatePost, i: nat)
    requires i < |st.notifiers|
    ensures var targets := PrivateTargets(members, settings, st.ledger, post, st.notifiers);
            TimesNotified(Log(Run(st, OfPrivateTopic, post.id, targets).notifiers[i], OfPrivateTopic),
                          post.id, post.author)
            == TimesNotified(Log(st.notifiers[i], OfPrivateTopic), post.id, post.author)
  {
    var targets := PrivateTargets(members, settings, st.ledger, post, st.notifiers);
    RunDeliversFreshTargetsOnce(st, OfPrivateTopic, post.id, targets, i, post.author);
  }

  /**
   * How many users a log holds, counted per delivery: the length of the mock
   * notifier's list of notified users.
   */
  function UsersNotified(log: seq<Delivery>): (r: nat)
    ensures r == 0 <==> forall j :: 0 <= j < |log| ==> log[j].users == {}
    ensures forall j :: 0 <= j < |log| ==> |log[j].users| <= r
  {
    if log == [] then 0
    else
      var init := log[..|log| - 1];
      assert forall j :: 0 <= j < |init| ==> init[j] == log[j];
      UsersNotified(init) + |log[|log| - 1].users|
  }

  // The targeted-users examples: a follower of the post's topic, not its author, not yet notified.

  /** A follower whose preference for the notifier's key is on is targeted. */
  lemma EnabledFollowerTargeted(follows: set<(UserId, TopicId)>, s: Settings, ledger: set<Entry>, post: Post,
                                follower: UserId, key: Key)
    requires (follower, post.topic) in follows && follower != post.author
    requires Entry(OfTopic, post.id, follower) !in ledger
    requires (follower, post.board, key) !in s.boardFollowedTopics
    ensures follower in TargetedUsers(follows, s.(followedTopics := s.followedTopics[(follower, key) := true]),
                                      ledger, post, key)
  {
  }

  /** A follower already in the ledger for the post is not targeted, whatever their preferences. */
  lemma NotifiedFollowerExcluded(follows: set<(UserId, TopicId)>, s: Settings, ledger: set<Entry>, post: Post,
                                 follower: UserId, key: Key)
    ensures follower !in TargetedUsers(follows, s, ledger + {Entry(OfTopic, post.id, follower)}, post, key)
  {
  }

  /** The poster is not targeted, even when following the topic. */
  lemma PosterExcluded(follows: set<(UserId, TopicId)>, s: Settings, ledger: set<Entry>, post: Post, key: Key)
    ensures post.author !in TargetedUsers(follows + {(post.author, post.topic)}, s, ledger, post, key)
  {
  }

  /**
   * Turning one key off globally excludes the follower for that key only
   * (absent a messageboard override); every other key targets exactly as before.
   */
  lemma GlobalDisableIsPerKey(follows: set<(UserId, TopicId)>, s: Settings, ledger: set<Entry>, post: Post,
                              follower: UserId, key: Key, other: Key)
    requires (follower, post.board, key) !in s.boardFollowedTopics
    requires other != key
    ensures var s' := s.(followedTopics := s.followedTopics[(follower, key) := false]);
            && follower !in TargetedUsers(follows, s', ledger, post, key)
            && TargetedUsers(follows, s', ledger, post, other) == TargetedUsers(follows, s, ledger, post, other)
  {
    var s' := s.(followedTopics := s.followedTopics[(follower, key) := false]);
    forall u ensures Resolved(s', u, other, FollowedTopic(post.board)) == Resolved(s, u, other, FollowedTopic(post.board)) {
      OtherKeysIndependent(s, u, other, FollowedTopic(post.board), follower, post.board, key, false);
    }
  }

  /**
   * Turning one key off for the post's messageboard excludes the follower for
   * that key only; every other key targets exactly as before.
   */
  lemma BoardDisableIsPerKey(follows: set<(UserId, TopicId)>, s: Settings, ledger: set<Entry>, post: Post,
                             follower: UserId, key: Key, other: Key)
    requires other != key
    ensures var s' := s.(boardFollowedTopics := s.boardFollowedTopics[(follower, post.board, key) := false]);
            && follower !in TargetedUsers(follows, s', ledger, post, key)
            && TargetedUsers(follows, s', ledger, post, other) == TargetedUsers(follows, s, ledger, post, other)
  {
    var s' := s.(boardFollowedTopics := s.boardFollowedTopics[(follower, post.board, key) := false]);
    forall u ensures Resolved(s', u, other, FollowedTopic(post.board)) == Resolved(s, u, other, FollowedTopic(post.board)) {
      OtherKeysIndependent(s, u, other, FollowedTopic(post.board), follower, post.board, key, false);
    }
  }

  /** With only the follower's global 'email' row off, the e-mail notifier skips them and the mock notifier does not. */
  lemma EmailOffMockOn(post: Post, follower: UserId)
    requires follower != post.author
    ensures var s := NoSettings.(followedTopics := map[(follower, EmailKey) := false]);
            && follower !in TargetedUsers({(follower, post.topic)}, s, {}, post, EmailKey)
            && follower in TargetedUsers({(follower, post.topic)}, s, {}, post, MockKey)
  {
  }

  /**
   * Two registered notifiers, each targeting one user: the first run makes one
   * delivery of that user to each, and a second run changes nothing.
   */
  lemma TwoNotifiersOneUser(post: PostId, user: UserId)
    ensures var st := State({}, Registry([MockKey, MockKey]));
            var r := Run(st, OfTopic, post, [{user}, {user}]);
            && |r.notifiers| == 2
            && r.notifiers[0].newPosts == [Delivery(post, {user})]
            && r.notifiers[1].newPosts == [Delivery(post, {user})]
            && UsersNotified(r.notifiers[0].newPosts) == 1
            && UsersNotified(r.notifiers[1].newPosts) == 1
            && Run(r, OfTopic, post, [{user}, {user}]) == r
  {
    var st := State({}, Registry([MockKey, MockKey]));
    var targets := [{user}, {user}];
    assert AllTargets(targets) == {user};
    assert Fresh(st.ledger, OfTopic, post, targets) == {user};
    var log := [Delivery(post, {user})];
    assert log[..0] == [];
    assert UsersNotified(log) == 1;
    var r := Run(st, OfTopic, post, targets);
    assert targets[0] * {user} == {user} && targets[1] * {user} == {user};
    assert r.notifiers[0] == Deliver(Notifier(MockKey, [], []), OfTopic, Delivery(post, {user}));
    assert r.notifiers[1] == Deliver(Notifier(MockKey, [], []), OfTopic, Delivery(post, {user}));
    RunIdempotent(st, OfTopic, post, targets);
  }

  /** One registered notifier targeting one user: the first run makes one delivery, a second run changes nothing. */
  lemma OneNotifierOneUser(post: PostId, user: UserId)
    ensures var st := State({}, Registry([MockKey]));
            var r := Run(st, OfTopic, post, [{user}]);
            && |r.notifiers| == 1
            && r.notifiers[0].newPosts == [Delivery(post, {user})]
            && Run(r, OfTopic, post, [{user}]) == r
  {
    var st := State({}, Registry([MockKey]));
    var targets := [{user}];
    assert AllTargets(targets) == {user};
    assert Fresh(st.ledger, OfTopic, post, targets) == {user};
    var r := Run(st, OfTopic, post, targets);
    assert targets[0] * {user} == {user};
    assert r.notifiers[0] == Deliver(Notifier(MockKey, [], []), OfTopic, Delivery(post, {user}));
    RunIdempotent(st, OfTopic, post, targets);
  }
}
