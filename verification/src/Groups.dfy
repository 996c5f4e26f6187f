/**
 Consumer-group rebalancing: each partition of each subscribed topic is dealt,
 round robin, to one of the members subscribed to that topic.  Members, topics
 and partitions are visited in arbitrary orders.
 */
module Groups {
  import opened Bytes
  import opened ClusterState
  import opened Placement

  type Members = map<Data, Member>

  function Repeat<T>(x: T, n: nat): (r: seq<T>)
    ensures |r| == n && forall i :: 0 <= i < n ==> r[i] == x
  {
    seq(n, _ => x)
  }

  /** The members subscribed to `topic` in visiting order, one entry for each time
      they list it. */
  function Subscribers(members: Members, order: seq<Data>, topic: Data): seq<Data>
    requires forall m :: m in order ==> m in members
  {
    if order == [] then [] else
      var m := order[|order| - 1];
      Subscribers(members, order[..|order| - 1], topic) + Repeat(m, Times(members[m].topics, topic))
  }

  /** `order` visits every member once. */
  ghost predicate Visiting(order: seq<Data>, members: Members) {
    NoDup(order) && forall m :: m in order <==> m in members
  }

  /** The member a partition goes to, if its topic exists and has a subscriber. */
  function Owner(members: Members, order: seq<Data>, topics: Topics, tp: TopicPartition): Option<Data>
    requires forall m :: m in order ==> m in members
  {
    var subs := Subscribers(members, order, tp.topic);
    if tp.topic in topics && tp.partition in topics[tp.topic].partitions && subs != []
    then Some(subs[tp.partition % |subs|])
    else None
  }

  predicate Has(assignments: map<Data, seq<TopicPartition>>, m: Data, tp: TopicPartition) {
    m in assignments && tp in assignments[m]
  }

  /** Every member is assigned exactly the partitions it owns, each once. */
  ghost predicate Dealt(members: Members, order: seq<Data>, topics: Topics, assignments: map<Data, seq<TopicPartition>>) {
    && Visiting(order, members)
    && (forall m :: m in assignments ==> NoDup(assignments[m]))
    && (forall m, tp :: Has(assignments, m, tp) <==> Owner(members, order, topics, tp) == Some(m))
  }

  // ---- subscribers ----

  predicate Subscribed(members: Members, m: Data, topic: Data) {
    m in members && topic in members[m].topics
  }

  lemma {:induction false} TimesPositive<T>(s: seq<T>, x: T)
    ensures Times(s, x) > 0 <==> x in s
    ensures NoDup(s) ==> Times(s, x) <= 1
  {
    if s != [] {
      var init, l := s[..|s| - 1], s[|s| - 1];
      assert s == init + [l];
      TimesPositive(init, x);
      if NoDup(s) {
        assert l !in init;
      }
    }
  }

  lemma {:induction false} SubscribersSound(members: Members, order: seq<Data>, topic: Data)
    requires forall m :: m in order ==> m in members
    ensures forall m :: m in Subscribers(members, order, topic) <==> m in order && Subscribed(members, m, topic)
  {
    if order != [] {
      var init, l := order[..|order| - 1], order[|order| - 1];
      assert order == init + [l];
      SubscribersSound(members, init, topic);
      TimesPositive(members[l].topics, topic);
      var n := Times(members[l].topics, topic);
      assert n > 0 ==> Repeat(l, n)[0] == l;
      assert forall m :: m in Repeat(l, n) ==> m == l;
    }
  }

  lemma {:induction false} SubscribersDistinct(members: Members, order: seq<Data>, topic: Data)
    requires NoDup(order) && forall m :: m in order ==> m in members && NoDup(members[m].topics)
    ensures NoDup(Subscribers(members, order, topic))
  {
    if order != [] {
      var init, l := order[..|order| - 1], order[|order| - 1];
      assert order == init + [l] && l !in init;
      SubscribersDistinct(members, init, topic);
      SubscribersSound(members, init, topic);
      TimesPositive(members[l].topics, topic);
    }
  }

  // ---- what a rebalance guarantees ----

  /** Each partition of an existing topic with a subscriber goes to exactly one
      member, and that member is subscribed. */
  lemma DealtToOne(members: Members, order: seq<Data>, topics: Topics, assignments: map<Data, seq<TopicPartition>>, tp: TopicPartition, m: Data)
    requires Dealt(members, order, topics, assignments)
    requires tp.topic in topics && tp.partition in topics[tp.topic].partitions && Subscribed(members, m, tp.topic)
    ensures exists o :: Has(assignments, o, tp) && Subscribed(members, o, tp.topic)
    ensures forall o, o' :: Has(assignments, o, tp) && Has(assignments, o', tp) ==> o == o'
  {
    SubscribersSound(members, order, tp.topic);
    var subs := Subscribers(members, order, tp.topic);
    assert m in subs;
    var o := subs[tp.partition % |subs|];
    assert Owner(members, order, topics, tp) == Some(o) && o in subs;
    assert Has(assignments, o, tp);
  }

  /** Nothing else is assigned. */
  lemma DealtExists(members: Members, order: seq<Data>, topics: Topics, assignments: map<Data, seq<TopicPartition>>, tp: TopicPartition, m: Data)
    requires Dealt(members, order, topics, assignments) && Has(assignments, m, tp)
    ensures tp.topic in topics && tp.partition in topics[tp.topic].partitions && Subscribed(members, m, tp.topic)
  {
    SubscribersSound(members, order, tp.topic);
    var subs := Subscribers(members, order, tp.topic);
    assert subs[tp.partition % |subs|] in subs;
  }

  /** How many of the partitions 0..count-1 of a topic a member is assigned. */
  ghost function Load(assignments: map<Data, seq<TopicPartition>>, m: Data, topic: Data, count: nat): nat {
    if count == 0 then 0
    else Load(assignments, m, topic, count - 1) + if Has(assignments, m, TopicPartition(topic, count - 1)) then 1 else 0
  }

  lemma {:induction false} LoadIsTurns(members: Members, order: seq<Data>, topics: Topics, assignments: map<Data, seq<TopicPartition>>, m: Data, topic: Data, count: nat)
    requires Dealt(members, order, topics, assignments) && topic in topics
    requires Subscribers(members, order, topic) != [] && forall i :: 0 <= i < count ==> i in topics[topic].partitions
    ensures Load(assignments, m, topic, count) == Turns(Subscribers(members, order, topic), count, m)
  {
    if count > 0 {
      LoadIsTurns(members, order, topics, assignments, m, topic, count - 1);
      var tp := TopicPartition(topic, count - 1);
      assert Has(assignments, m, tp) <==> Owner(members, order, topics, tp) == Some(m);
    }
  }

  /** Without repeated topics in subscriptions, two members of a topic differ by at
      most one partition of it. */
  lemma LoadsBalanced(members: Members, order: seq<Data>, topics: Topics, assignments: map<Data, seq<TopicPartition>>, topic: Data, count: nat, a: Data, b: Data)
    requires Dealt(members, order, topics, assignments) && topic in topics
    requires forall i :: 0 <= i < count ==> i in topics[topic].partitions
    requires forall m :: m in members ==> NoDup(members[m].topics)
    requires Subscribed(members, a, topic) && Subscribed(members, b, topic)
    ensures -1 <= Load(assignments, a, topic, count) - Load(assignments, b, topic, count) <= 1
  {
    SubscribersSound(members, order, topic);
    SubscribersDistinct(members, order, topic);
    var subs := Subscribers(members, order, topic);
    assert a in subs && b in subs;
    LoadIsTurns(members, order, topics, assignments, a, topic, count);
    LoadIsTurns(members, order, topics, assignments, b, topic, count);
    var i :| 0 <= i < |subs| && subs[i] == a;
    var j :| 0 <= j < |subs| && subs[j] == b;
    TurnsFair(subs, count, i);
    TurnsFair(subs, count, j);
  }

  // ---- the loops ----

  function Lookup(index: map<Data, seq<Data>>, topic: Data): seq<Data> {
    if topic in index then index[topic] else []
  }

  lemma RepeatSnoc<T>(s: seq<T>, x: T, n: nat)
    ensures (s + Repeat(x, n)) + [x] == s + Repeat(x, n + 1)
  {
  }

  lemma SubscribersSnoc(members: Members, order: seq<Data>, m: Data, topic: Data)
    requires m in members && forall x :: x in order ==> x in members
    ensures Subscribers(members, order + [m], topic)
         == Subscribers(members, order, topic) + Repeat(m, Times(members[m].topics, topic))
  {
    assert (order + [m])[..|order|] == order;
  }

  /** `index` holds, per topic, the members visited so far that subscribe to it. */
  ghost predicate Indexes(index: map<Data, seq<Data>>, members: Members, order: seq<Data>) {
    && (forall m :: m in order ==> m in members)
    && (forall topic :: Lookup(index, topic) == Subscribers(members, order, topic))
    && (forall topic :: topic in index ==> index[topic] != [])
  }

  /** Collects, per topic, the members interested in it. */
  method CollectSubscribers(members: Members) returns (index: map<Data, seq<Data>>, ghost order: seq<Data>)
    ensures Visiting(order, members) && Indexes(index, members, order)
  {
    index, order := map[], [];
    var todo := members.Keys;
    while todo != {}
      invariant todo <= members.Keys && NoDup(order) && forall m :: m in order <==> m in members && m !in todo
      invariant Indexes(index, members, order)
    {
      var m :| m in todo;
      index := AddMember(index, m, members, order);
      order, todo := order + [m], todo - {m};
    }
  }

  method AddMember(index0: map<Data, seq<Data>>, m: Data, members: Members, ghost order: seq<Data>)
    returns (index: map<Data, seq<Data>>)
    requires m in members && Indexes(index0, members, order)
    ensures Indexes(index, members, order + [m])
  {
    var topics := members[m].topics;
    index := index0;
    for i := 0 to |topics|
      invariant forall topic :: Lookup(index, topic) == Lookup(index0, topic) + Repeat(m, Times(topics[..i], topic))
      invariant forall topic :: topic in index ==> index[topic] != []
    {
      var t := topics[i];
      ghost var n := Times(topics[..i], t);
      assert topics[..i + 1] == topics[..i] + [t];
      forall topic ensures Times(topics[..i + 1], topic) == Times(topics[..i], topic) + if t == topic then 1 else 0 {
        TimesSnoc(topics[..i], t, topic);
      }
      RepeatSnoc(Lookup(index0, t), m, n);
      index := index[t := Lookup(index, t) + [m]];
    }
    assert topics[..|topics|] == topics;
    forall topic ensures Lookup(index, topic) == Subscribers(members, order + [m], topic) {
      SubscribersSnoc(members, order, m, topic);
    }
  }

  ghost predicate NoRepeats(assignments: map<Data, seq<TopicPartition>>) {
    forall m :: m in assignments ==> NoDup(assignments[m])
  }

  /** The member whose turn partition p of a topic is. */
  predicate TurnOf(subs: seq<Data>, p: nat, m: Data) {
    subs != [] && subs[p % |subs|] == m
  }

  method Assign(a0: map<Data, seq<TopicPartition>>, m: Data, tp: TopicPartition) returns (a: map<Data, seq<TopicPartition>>)
    requires NoRepeats(a0) && !Has(a0, m, tp)
    ensures NoRepeats(a)
    ensures forall x, y :: Has(a, x, y) <==> Has(a0, x, y) || (x == m && y == tp)
  {
    a := a0[m := (if m in a0 then a0[m] else []) + [tp]];
  }

  /** Deals the partitions of one topic, in any order. */
  method DealTopic(a0: map<Data, seq<TopicPartition>>, name: Data, subs: seq<Data>, partitions: map<nat, Partition>)
    returns (a: map<Data, seq<TopicPartition>>)
    requires NoRepeats(a0) && subs != [] && forall m, tp :: Has(a0, m, tp) ==> tp.topic != name
    ensures NoRepeats(a)
    ensures forall m, tp :: Has(a, m, tp) <==>
      Has(a0, m, tp) || (tp.topic == name && tp.partition in partitions && TurnOf(subs, tp.partition, m))
  {
    a := a0;
    var todo := partitions.Keys;
    while todo != {}
      invariant todo <= partitions.Keys && NoRepeats(a)
      invariant forall m, tp :: Has(a, m, tp) <==>
        Has(a0, m, tp) || (tp.topic == name && tp.partition in partitions.Keys - todo && TurnOf(subs, tp.partition, m))
    {
      var p :| p in todo;
      a := Assign(a, subs[p % |subs|], TopicPartition(name, p));
      todo := todo - {p};
    }
  }

  /** Deals all subscribed topics, in any order. */
  method Deal(members: Members, topics: Topics) returns (a: map<Data, seq<TopicPartition>>, ghost order: seq<Data>)
    ensures Dealt(members, order, topics, a)
    ensures forall m, tp :: Has(a, m, tp) ==>
      tp.topic in topics && tp.partition in topics[tp.topic].partitions && Subscribed(members, m, tp.topic)
  {
    var index;
    index, order := CollectSubscribers(members);
    a := map[];
    var todo := index.Keys;
    while todo != {}
      invariant todo <= index.Keys && NoRepeats(a)
      invariant forall m, tp :: Has(a, m, tp) <==>
        tp.topic in index.Keys - todo && Owner(members, order, topics, tp) == Some(m)
    {
      var name :| name in todo;
      var subs := index[name];
      assert subs == Lookup(index, name);
      if name in topics {
        a := DealTopic(a, name, subs, topics[name].partitions);
      }
      todo := todo - {name};
    }
    forall m, tp | Owner(members, order, topics, tp) == Some(m) ensures tp.topic in index {
      assert Lookup(index, tp.topic) == Subscribers(members, order, tp.topic);
    }
    AllExist(members, order, topics, a);
  }

  lemma AllExist(members: Members, order: seq<Data>, topics: Topics, assignments: map<Data, seq<TopicPartition>>)
    requires Dealt(members, order, topics, assignments)
    ensures forall m, tp :: Has(assignments, m, tp) ==>
      tp.topic in topics && tp.partition in topics[tp.topic].partitions && Subscribed(members, m, tp.topic)
  {
    forall m, tp | Has(assignments, m, tp)
      ensures tp.topic in topics && tp.partition in topics[tp.topic].partitions && Subscribed(members, m, tp.topic)
    {
      DealtExists(members, order, topics, assignments, tp, m);
    }
  }
}
