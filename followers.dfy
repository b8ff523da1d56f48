/**
 * The followers service over a graph of `User` nodes and `FOLLOWS` edges.
 * The graph store is a set of user ids and a set of (follower, followee)
 * pairs; a store failure is an input, and a failing write changes nothing
 * (the write runs in one transaction).
 */
module Followers {
  import opened Wrappers

  type Edge = (string, string)

  /** The graph as a value: the state the spec functions below speak about. */
  datatype Graph = Graph(users: set<string>, follows: set<Edge>)

  /** Every edge joins two stored users. */
  predicate Closed(g: Graph)
  {
    forall e :: e in g.follows ==> e.0 in g.users && e.1 in g.users
  }

  /** The three MERGE clauses of `Follow`: both nodes and the edge exist afterwards. */
  function Followed(g: Graph, a: string, b: string): Graph
  {
    Graph(g.users + {a, b}, g.follows + {(a, b)})
  }

  /** The MATCH ... DELETE of `Unfollow`: the one edge, if any, goes. */
  function Unfollowed(g: Graph, a: string, b: string): Graph
  {
    Graph(g.users, g.follows - {(a, b)})
  }

  /** `GetFollowing`: the users `u` follows. */
  function Following(g: Graph, u: string): set<string>
  {
    set e | e in g.follows && e.0 == u :: e.1
  }

  /** `GetFollowers`: the users following `u`. */
  function FollowersOf(g: Graph, u: string): set<string>
  {
    set e | e in g.follows && e.1 == u :: e.0
  }

  /** `GetRecommendations`: whom the users `u` follows follow, minus `u` and those `u` already follows. */
  function Recommendations(g: Graph, u: string): set<string>
  {
    set e | e in g.follows && (u, e.0) in g.follows && e.1 != u && (u, e.1) !in g.follows :: e.1
  }

  lemma FollowedKeepsClosed(g: Graph, a: string, b: string)
    requires Closed(g)
    ensures Closed(Followed(g, a, b))
  {
  }

  /** Following twice is following once (MERGE creates nothing the second time). */
  lemma FollowIdempotent(g: Graph, a: string, b: string)
    ensures Followed(Followed(g, a, b), a, b) == Followed(g, a, b)
  {
    assert Followed(Followed(g, a, b), a, b).users == Followed(g, a, b).users;
    assert Followed(Followed(g, a, b), a, b).follows == Followed(g, a, b).follows;
  }

  /** After `Follow(a, b)`, b is among a's followees and a among b's followers, and no other pair changes. */
  lemma FollowListed(g: Graph, a: string, b: string)
    ensures b in Following(Followed(g, a, b), a)
    ensures a in FollowersOf(Followed(g, a, b), b)
    ensures forall e :: e in Followed(g, a, b).follows <==> e in g.follows || e == (a, b)
  {
    assert (a, b) in Followed(g, a, b).follows;
  }

  /** `Unfollow(a, b)` removes exactly the edge a -> b; without it nothing changes. */
  lemma UnfollowRemovesOnly(g: Graph, a: string, b: string)
    ensures b !in Following(Unfollowed(g, a, b), a)
    ensures forall e :: e in Unfollowed(g, a, b).follows <==> e in g.follows && e != (a, b)
    ensures (a, b) !in g.follows ==> Unfollowed(g, a, b) == g
  {
  }

  /** Following someone new and then unfollowing them restores the relation. */
  lemma FollowThenUnfollow(g: Graph, a: string, b: string)
    requires (a, b) !in g.follows
    ensures Unfollowed(Followed(g, a, b), a, b).follows == g.follows
  {
  }

  /** Following and followers are the image and the preimage of one relation. */
  lemma FollowingFollowersDual(g: Graph, u: string, v: string)
    ensures v in Following(g, u) <==> (u, v) in g.follows
    ensures u in FollowersOf(g, v) <==> (u, v) in g.follows
  {
    if v in Following(g, u) {
      var e :| e in g.follows && e.0 == u && e.1 == v;
      assert e == (u, v);
    }
    if u in FollowersOf(g, v) {
      var e :| e in g.follows && e.1 == v && e.0 == u;
      assert e == (u, v);
    }
    if (u, v) in g.follows {
      assert (u, v).1 == v;
    }
  }

  /** r is recommended to u exactly when u follows someone who follows r, r is not u, and u does not follow r. */
  lemma RecommendationsExactly(g: Graph, u: string, r: string)
    ensures r in Recommendations(g, u) <==>
              (exists x :: (u, x) in g.follows && (x, r) in g.follows) && r != u && (u, r) !in g.follows
  {
    if r in Recommendations(g, u) {
      var e :| e in g.follows && (u, e.0) in g.follows && e.1 != u && (u, e.1) !in g.follows && e.1 == r;
      assert (u, e.0) in g.follows && (e.0, r) in g.follows;
    }
    if (exists x :: (u, x) in g.follows && (x, r) in g.follows) && r != u && (u, r) !in g.follows {
      var x :| (u, x) in g.follows && (x, r) in g.follows;
      var e := (x, r);
      assert e in g.follows && (u, e.0) in g.follows && e.1 != u && (u, e.1) !in g.follows;
    }
  }

  /** Following a recommended user removes them from the recommendations. */
  lemma FollowingRecommendedRemovesIt(g: Graph, u: string, r: string)
    ensures r !in Recommendations(Followed(g, u, r), u)
  {
    RecommendationsExactly(Followed(g, u, r), u, r);
  }

  /** The rows a read query yields, appended one by one: each result once, in some order. */
  method Collect(result: set<string>) returns (ids: seq<string>)
    ensures forall v :: v in ids <==> v in result
    ensures forall i, j :: 0 <= i < j < |ids| ==> ids[i] != ids[j]
  {
    ids := [];
    var rest := result;
    while rest != {}
      invariant rest <= result
      invariant forall v :: v in result <==> v in ids || v in rest
      invariant forall v :: v in ids ==> v !in rest
      invariant forall i, j :: 0 <= i < j < |ids| ==> ids[i] != ids[j]
      decreases rest
    {
      var v :| v in rest;
      ids := ids + [v];
      rest := rest - {v};
    }
  }

  /** The store of users and FOLLOWS edges. */
  class FollowGraph {
    var users: set<string>
    var follows: set<Edge>

    function State(): Graph
      reads this
    {
      Graph(users, follows)
    }

    predicate Valid()
      reads this
    {
      Closed(State())
    }

    constructor()
      ensures State() == Graph({}, {}) && Valid()
    {
      users := {};
      follows := {};
    }

    /** `Follow`: success exactly when the store raised no error; a failed write changes nothing. */
    method Follow(a: string, b: string, storeError: Option<string>) returns (success: bool, err: Option<string>)
      requires Valid()
      modifies this
      ensures Valid()
      ensures success <==> storeError.None?
      ensures err == storeError
      ensures State() == if success then Followed(old(State()), a, b) else old(State())
    {
      if storeError.Some? {
        return false, storeError;
      }
      FollowedKeepsClosed(State(), a, b);
      users := users + {a, b};
      follows := follows + {(a, b)};
      success, err := true, None;
    }

    /** `Unfollow`: an absent edge is not an error. */
    method Unfollow(a: string, b: string, storeError: Option<string>) returns (success: bool, err: Option<string>)
      requires Valid()
      modifies this
      ensures Valid()
      ensures success <==> storeError.None?
      ensures err == storeError
      ensures State() == if success then Unfollowed(old(State()), a, b) else old(State())
    {
      if storeError.Some? {
        return false, storeError;
      }
      follows := follows - {(a, b)};
      success, err := true, None;
    }

    method GetFollowing(u: string) returns (ids: seq<string>)
      ensures forall v :: v in ids <==> (u, v) in follows
      ensures forall i, j :: 0 <= i < j < |ids| ==> ids[i] != ids[j]
    {
      ids := Collect(Following(State(), u));
      forall v ensures v in ids <==> (u, v) in follows {
        FollowingFollowersDual(State(), u, v);
      }
    }

    method GetFollowers(u: string) returns (ids: seq<string>)
      ensures forall v :: v in ids <==> (v, u) in follows
      ensures forall i, j :: 0 <= i < j < |ids| ==> ids[i] != ids[j]
    {
      ids := Collect(FollowersOf(State(), u));
      forall v ensures v in ids <==> (v, u) in follows {
        FollowingFollowersDual(State(), v, u);
      }
    }

    method GetRecommendations(u: string) returns (ids: seq<string>)
      ensures forall r :: r in ids <==> r in Recommendations(State(), u)
      ensures forall r :: r in ids ==> r != u && (u, r) !in follows
      ensures forall i, j :: 0 <= i < j < |ids| ==> ids[i] != ids[j]
    {
      ids := Collect(Recommendations(State(), u));
      forall r | r in ids ensures r != u && (u, r) !in follows {
        RecommendationsExactly(State(), u, r);
      }
    }
  }
}
