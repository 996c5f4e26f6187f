/**
 The controller's answer to a heartbeat: which partitions the broker leads, with
 the replica list the leader needs, and which it follows.
 */
module Heartbeats {
  import opened Bytes
  import opened ClusterState

  datatype Assignment = Assignment(topic: Data, partition: nat, leader: nat, replicas: seq<nat>)

  /** `a` describes an existing partition as it stands. */
  predicate Describes(topics: Topics, a: Assignment) {
    && a.topic in topics && a.partition in topics[a.topic].partitions
    && a.leader == topics[a.topic].partitions[a.partition].leader
    && a.replicas == topics[a.topic].partitions[a.partition].replicas
  }

  predicate Leads(topics: Topics, broker: nat, a: Assignment) {
    Describes(topics, a) && a.leader == broker
  }

  predicate Follows(topics: Topics, broker: nat, a: Assignment) {
    Describes(topics, a) && a.leader != broker && broker in a.replicas
  }

  /** One partition's turn: it goes to the leader list, the follower list or neither. */
  method Place(a: Assignment, broker: nat, leaders0: seq<Assignment>, followers0: seq<Assignment>)
    returns (leaders: seq<Assignment>, followers: seq<Assignment>)
    ensures leaders == if a.leader == broker then leaders0 + [a] else leaders0
    ensures followers == if a.leader != broker && broker in a.replicas then followers0 + [a] else followers0
  {
    leaders, followers := leaders0, followers0;
    if a.leader == broker {
      leaders := leaders + [a];
    } else {
      for i := 0 to |a.replicas|
        invariant broker !in a.replicas[..i] && followers == followers0
      {
        if a.replicas[i] == broker {
          followers := followers + [a];
          break;
        }
      }
    }
  }

  /** Partitions of the topics `done`, and the partitions `seen` of topic `name`. */
  predicate Covered(done: set<Data>, name: Data, seen: set<nat>, a: Assignment) {
    a.topic in done || (a.topic == name && a.partition in seen)
  }

  /** The lists hold the covered partitions the broker leads and follows, once each. */
  ghost predicate Split(topics: Topics, broker: nat, leaders: seq<Assignment>, followers: seq<Assignment>,
                        done: set<Data>, name: Data, seen: set<nat>)
  {
    && NoDup(leaders) && NoDup(followers)
    && (forall a :: a in leaders <==> Leads(topics, broker, a) && Covered(done, name, seen, a))
    && (forall a :: a in followers <==> Follows(topics, broker, a) && Covered(done, name, seen, a))
  }

  method SplitTopic(topics: Topics, broker: nat, name: Data, leaders0: seq<Assignment>, followers0: seq<Assignment>, ghost done: set<Data>)
    returns (leaders: seq<Assignment>, followers: seq<Assignment>)
    requires name in topics && name !in done && Split(topics, broker, leaders0, followers0, done, name, {})
    ensures Split(topics, broker, leaders, followers, done + {name}, [], {})
  {
    leaders, followers := leaders0, followers0;
    var left, seen: set<nat> := topics[name].partitions.Keys, {};
    while left != {}
      invariant left + seen == topics[name].partitions.Keys && left !! seen
      invariant Split(topics, broker, leaders, followers, done, name, seen)
    {
      var q :| q in left;
      var p := topics[name].partitions[q];
      var a := Assignment(name, q, p.leader, p.replicas);
      assert a !in leaders && a !in followers;
      leaders, followers := Place(a, broker, leaders, followers);
      left, seen := left - {q}, seen + {q};
    }
  }

  /** Each partition the broker leads is in the first list once, each it follows in
      the second once, and nothing else is. */
  method Assignments(topics: Topics, broker: nat) returns (leaders: seq<Assignment>, followers: seq<Assignment>)
    ensures NoDup(leaders) && NoDup(followers)
    ensures forall a :: a in leaders <==>
      && a.topic in topics && a.partition in topics[a.topic].partitions
      && var p := topics[a.topic].partitions[a.partition];
      p.leader == broker && a.leader == p.leader && a.replicas == p.replicas
    ensures forall a :: a in followers <==>
      && a.topic in topics && a.partition in topics[a.topic].partitions
      && var p := topics[a.topic].partitions[a.partition];
      p.leader != broker && broker in p.replicas && a.leader == p.leader && a.replicas == p.replicas
  {
    leaders, followers := [], [];
    var todo, done: set<Data> := topics.Keys, {};
    while todo != {}
      invariant todo + done == topics.Keys && todo !! done
      invariant Split(topics, broker, leaders, followers, done, [], {})
    {
      var name :| name in todo;
      leaders, followers := SplitTopic(topics, broker, name, leaders, followers, done);
      todo, done := todo - {name}, done + {name};
    }
  }
}
