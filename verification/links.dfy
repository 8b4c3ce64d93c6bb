// jid_links: which JIDs of an account are known to name the same chat or person.
module Links {
  import opened TextOrder

  type Jid = string
  type LinkRow = (Jid, Jid)

  // What addChatLinkTx keeps: rows come in both directions and never hold an empty JID.
  ghost predicate WellFormed(rows: set<LinkRow>) {
    forall r :: r in rows ==> (r.1, r.0) in rows && r.0 != "" && r.1 != ""
  }

  ghost predicate IsPath(rows: set<LinkRow>, p: seq<Jid>) {
    p != [] && forall i :: 0 <= i < |p| - 1 ==> (p[i], p[i + 1]) in rows
  }

  // b can be reached from a by following zero or more rows.
  ghost predicate Reaches(rows: set<LinkRow>, a: Jid, b: Jid) {
    exists p :: IsPath(rows, p) && p[0] == a && p[|p| - 1] == b
  }

  ghost predicate Closed(rows: set<LinkRow>, s: set<Jid>) {
    forall r :: r in rows && r.0 in s ==> r.1 in s
  }

  ghost function Names(rows: set<LinkRow>, a: Jid): set<Jid> {
    {a} + set r | r in rows :: r.1
  }

  // Everyone linked, directly or not, with a.
  ghost function Component(rows: set<LinkRow>, a: Jid): (s: set<Jid>)
    ensures a in s
  {
    ReachesSelf(rows, a);
    set b | b in Names(rows, a) && Reaches(rows, a, b)
  }

  // The JID that stands for a's whole component.
  ghost function Rep(rows: set<LinkRow>, a: Jid): Jid {
    Least(Component(rows, a))
  }

  lemma ReachesSelf(rows: set<LinkRow>, a: Jid)
    ensures Reaches(rows, a, a)
  {
    var p := [a];
    assert IsPath(rows, p) && p[0] == a && p[|p| - 1] == a;
  }

  lemma ReachesStep(rows: set<LinkRow>, a: Jid, b: Jid, c: Jid)
    requires Reaches(rows, a, b) && (b, c) in rows
    ensures Reaches(rows, a, c)
  {
    var p :| IsPath(rows, p) && p[0] == a && p[|p| - 1] == b;
    var q := p + [c];
    assert IsPath(rows, q) && q[0] == a && q[|q| - 1] == c;
  }

  lemma {:induction false} PathStaysInClosed(rows: set<LinkRow>, s: set<Jid>, p: seq<Jid>)
    requires Closed(rows, s) && IsPath(rows, p) && p[0] in s
    ensures p[|p| - 1] in s
  {
    if |p| > 1 {
      assert (p[0], p[1]) in rows;
      PathStaysInClosed(rows, s, p[1..]);
    }
  }

  lemma ReachesStaysInClosed(rows: set<LinkRow>, s: set<Jid>, a: Jid, b: Jid)
    requires Closed(rows, s) && a in s && Reaches(rows, a, b)
    ensures b in s
  {
    var p :| IsPath(rows, p) && p[0] == a && p[|p| - 1] == b;
    PathStaysInClosed(rows, s, p);
  }

  lemma ComponentClosed(rows: set<LinkRow>, a: Jid)
    ensures Closed(rows, Component(rows, a))
  {
    forall r | r in rows && r.0 in Component(rows, a)
      ensures r.1 in Component(rows, a)
    {
      ReachesStep(rows, a, r.0, r.1);
    }
  }

  lemma ComponentIsReachable(rows: set<LinkRow>, a: Jid, b: Jid)
    ensures b in Component(rows, a) <==> Reaches(rows, a, b)
  {
    if Reaches(rows, a, b) {
      ComponentClosed(rows, a);
      ReachesStaysInClosed(rows, Component(rows, a), a, b);
    }
  }

  // A component is the smallest closed set around a.
  lemma ComponentWithin(rows: set<LinkRow>, s: set<Jid>, a: Jid)
    requires Closed(rows, s) && a in s
    ensures Component(rows, a) <= s
  {
    forall b | b in Component(rows, a)
      ensures b in s
    {
      ReachesStaysInClosed(rows, s, a, b);
    }
  }

  // What lies outside a closed set stays outside when rows are symmetric.
  lemma ComplementClosed(rows: set<LinkRow>, s: set<Jid>, a: Jid)
    requires WellFormed(rows) && Closed(rows, s) && a !in s
    ensures Component(rows, a) !! s
  {
    var rest := Component(rows, a) - s;
    ComponentClosed(rows, a);
    assert Closed(rows, rest) by {
      forall r | r in rows && r.0 in rest
        ensures r.1 in rest
      {
        assert (r.1, r.0) in rows;
      }
    }
    ComponentWithin(rows, rest, a);
  }

  lemma SameComponent(rows: set<LinkRow>, a: Jid, b: Jid)
    requires WellFormed(rows) && b in Component(rows, a)
    ensures Component(rows, b) == Component(rows, a)
  {
    ComponentClosed(rows, a);
    ComponentClosed(rows, b);
    ComponentWithin(rows, Component(rows, a), b);
    if a !in Component(rows, b) {
      ComplementClosed(rows, Component(rows, b), a);
    }
    ComponentWithin(rows, Component(rows, b), a);
  }

  function WithLink(rows: set<LinkRow>, a: Jid, b: Jid): set<LinkRow> {
    rows + {(a, b), (b, a)}
  }

  // One new link joins exactly the components of its two ends and no others.
  lemma LinkJoinsComponents(rows: set<LinkRow>, a: Jid, b: Jid, x: Jid)
    requires WellFormed(rows) && a != "" && b != ""
    ensures WellFormed(WithLink(rows, a, b))
    ensures var joined := Component(rows, a) + Component(rows, b);
            Component(WithLink(rows, a, b), x) == if x in joined then joined else Component(rows, x)
  {
    ComponentClosed(rows, a);
    ComponentClosed(rows, b);
    if x in Component(rows, a) {
      LinkJoinsInside(rows, a, b, x);
    } else if x in Component(rows, b) {
      LinkJoinsInside(rows, b, a, x);
      assert WithLink(rows, a, b) == WithLink(rows, b, a);
      assert Component(rows, a) + Component(rows, b) == Component(rows, b) + Component(rows, a);
    } else {
      LinkKeepsOutside(rows, a, b, x);
    }
  }

  lemma LinkJoinsInside(rows: set<LinkRow>, a: Jid, b: Jid, x: Jid)
    requires WellFormed(rows) && x in Component(rows, a)
    ensures Component(WithLink(rows, a, b), x) == Component(rows, a) + Component(rows, b)
  {
    var rows', all := WithLink(rows, a, b), Component(WithLink(rows, a, b), x);
    ComponentClosed(rows, a);
    ComponentClosed(rows, b);
    ComponentWithin(rows', Component(rows, a) + Component(rows, b), x);
    ComponentClosed(rows', x);
    assert Closed(rows, all);
    SameComponent(rows, a, x);
    ComponentWithin(rows, all, x);
    assert b in all;
    ComponentWithin(rows, all, b);
  }

  lemma LinkKeepsOutside(rows: set<LinkRow>, a: Jid, b: Jid, x: Jid)
    requires WellFormed(rows) && x !in Component(rows, a) && x !in Component(rows, b)
    ensures Component(WithLink(rows, a, b), x) == Component(rows, x)
  {
    var rows' := WithLink(rows, a, b);
    ComponentClosed(rows, a);
    ComponentClosed(rows, b);
    ComplementClosed(rows, Component(rows, a), x);
    ComplementClosed(rows, Component(rows, b), x);
    ComponentClosed(rows, x);
    ComponentWithin(rows', Component(rows, x), x);
    ComponentClosed(rows', x);
    assert Closed(rows, Component(rows', x));
    ComponentWithin(rows, Component(rows', x), x);
  }

  // Everyone linked with at least one of the seeds; an empty seed names nobody.
  ghost function Linked(rows: set<LinkRow>, seeds: seq<Jid>): set<Jid> {
    set s, x | s in seeds && s != "" && x in Component(rows, s) :: x
  }

  lemma LinkedClosed(rows: set<LinkRow>, seeds: seq<Jid>)
    ensures Closed(rows, Linked(rows, seeds))
    ensures forall s :: s in seeds && s != "" ==> s in Linked(rows, seeds)
  {
    forall r | r in rows && r.0 in Linked(rows, seeds)
      ensures r.1 in Linked(rows, seeds)
    {
      var s :| s in seeds && s != "" && r.0 in Component(rows, s);
      ComponentClosed(rows, s);
    }
    forall s | s in seeds && s != ""
      ensures s in Linked(rows, seeds)
    {
      assert s in Component(rows, s);
    }
  }

  lemma LinkedWithin(rows: set<LinkRow>, seeds: seq<Jid>, all: set<Jid>)
    requires Closed(rows, all) && forall s :: s in seeds && s != "" ==> s in all
    ensures Linked(rows, seeds) <= all
  {
    forall s, x | s in seeds && s != "" && x in Component(rows, s)
      ensures x in all
    {
      ComponentWithin(rows, all, s);
    }
  }

  lemma LinkedOne(rows: set<LinkRow>, a: Jid)
    requires a != ""
    ensures Linked(rows, [a]) == Component(rows, a)
  {
  }

  ghost predicate NoDuplicates<T>(s: seq<T>) {
    forall i, j :: 0 <= i < j < |s| ==> s[i] != s[j]
  }

  // Reads one answer of the row query; the rows may come in any order.
  method AppendPeers(jids: seq<Jid>, seen: set<Jid>, peers: set<Jid>) returns (jids': seq<Jid>, seen': set<Jid>)
    requires NoDuplicates(jids) && forall x :: x in jids <==> x in seen
    ensures NoDuplicates(jids') && forall x :: x in jids' <==> x in seen'
    ensures jids <= jids' && seen' == seen + (peers - {""})
    ensures seen' == seen ==> jids' == jids
  {
    jids', seen' := jids, seen;
    var rest := peers;
    while rest != {}
      invariant NoDuplicates(jids') && forall x :: x in jids' <==> x in seen'
      invariant jids <= jids' && rest <= peers && seen' == seen + (peers - rest - {""})
      invariant seen' == seen ==> jids' == jids
      decreases rest
    {
      var peer :| peer in rest;
      rest := rest - {peer};
      if peer != "" && peer !in seen' {
        seen' := seen' + {peer};
        jids' := jids' + [peer];
      }
    }
  }

  // The worklist search over jid_links: it finds exactly everyone linked with a seed.
  method LinkedJids(rows: set<LinkRow>, seeds: seq<Jid>) returns (jids: seq<Jid>)
    requires WellFormed(rows)
    ensures NoDuplicates(jids)
    ensures forall x :: x in jids <==> x in Linked(rows, seeds)
  {
    LinkedClosed(rows, seeds);
    ghost var seen;
    jids, seen := Search(rows, seeds, Linked(rows, seeds));
    LinkedWithin(rows, seeds, seen);
  }

  method Search(rows: set<LinkRow>, seeds: seq<Jid>, ghost all: set<Jid>) returns (jids: seq<Jid>,
      ghost found: set<Jid>)
    requires WellFormed(rows)
    requires Closed(rows, all) && forall s :: s in seeds && s != "" ==> s in all
    ensures NoDuplicates(jids) && forall x :: x in jids <==> x in found
    ensures found <= all && Closed(rows, found) && forall s :: s in seeds && s != "" ==> s in found
  {
    jids := [];
    var seen: set<Jid> := {};
    for k := 0 to |seeds|
      invariant NoDuplicates(jids) && forall x :: x in jids <==> x in seen
      invariant seen <= all && forall j :: 0 <= j < k && seeds[j] != "" ==> seeds[j] in seen
    {
      jids, seen := AppendPeers(jids, seen, {seeds[k]});
    }
    ghost var start := seen;
    var i := 0;
    while i < |jids|
      invariant 0 <= i <= |jids| && NoDuplicates(jids)
      invariant forall x :: x in jids <==> x in seen
      invariant start <= seen <= all
      invariant Followed(rows, jids[..i], seen)
      decreases all - seen, |jids| - i
    {
      FollowOne(rows, jids[..i], seen, jids[i], all);
      ghost var done := jids[..i] + [jids[i]];
      jids, seen := AppendPeers(jids, seen, Peers(rows, jids[i]));
      i := i + 1;
      assert jids[..i] == done;
    }
    assert jids[..i] == jids;
    found := seen;
  }

  function Peers(rows: set<LinkRow>, jid: Jid): set<Jid> {
    set r | r in rows && r.0 == jid :: r.1
  }

  ghost predicate Followed(rows: set<LinkRow>, done: seq<Jid>, seen: set<Jid>) {
    forall r :: r in rows && r.0 in done ==> r.1 in seen
  }

  lemma FollowOne(rows: set<LinkRow>, done: seq<Jid>, seen: set<Jid>, jid: Jid, all: set<Jid>)
    requires WellFormed(rows) && Followed(rows, done, seen) && Closed(rows, all) && jid in all
    ensures Peers(rows, jid) - {""} <= all
    ensures Followed(rows, done + [jid], seen + (Peers(rows, jid) - {""}))
  {
  }
}
