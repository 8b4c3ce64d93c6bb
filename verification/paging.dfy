// Reading messages page by page: the keyset query of messages.go and the handlers of server.go and replies.go.
module Paging {
  import opened Schema
  import opened Totals
  import opened Wrappers

  datatype Scope = Account | In(conv: Id)

  // encodeMessageCursor's fields; a cursor from before local orders were part of it has local 0.
  datatype Cursor = Cursor(at: int, id: Id, order: Option<nat>, local: nat)

  datatype Page = Page(items: seq<Id>, next: Option<Cursor>, previous: Option<Cursor>)

  predicate InScope(rows: Messages, scope: Scope, i: Id) {
    i in rows && (scope.In? ==> rows[i].conv == scope.conv)
  }

  function CursorOf(rows: Messages, i: Id): Cursor
    requires i in rows
  {
    Cursor(rows[i].at, i, rows[i].order, rows[i].local)
  }

  ghost predicate Descending(rows: Messages, s: seq<Id>) {
    && (forall i :: i in s ==> i in rows)
    && (forall j, k :: 0 <= j < k < |s| ==> s[j] in rows && s[k] in rows && Newer(rows[s[j]], rows[s[k]]))
  }

  // All messages of a scope, newest first.
  ghost predicate Timeline(rows: Messages, scope: Scope, tl: seq<Id>) {
    Descending(rows, tl) && forall i :: i in tl <==> InScope(rows, scope, i)
  }

  lemma {:induction false} TimelineExists(rows: Messages, scope: Scope)
    requires Numbered(rows)
    ensures exists tl :: Timeline(rows, scope, tl)
    decreases |rows|
  {
    if forall i :: i in rows ==> !InScope(rows, scope, i) {
      assert Timeline(rows, scope, []);
    } else {
      var i :| i in rows && InScope(rows, scope, i);
      var fewer := rows - {i};
      Fewer(rows, i);
      TimelineExists(fewer, scope);
      var rest :| Timeline(fewer, scope, rest);
      Inserted(rows, scope, rest, i);
    }
  }

  lemma Inserted(rows: Messages, scope: Scope, rest: seq<Id>, i: Id)
    requires Numbered(rows) && i in rows && InScope(rows, scope, i) && Timeline(rows - {i}, scope, rest)
    ensures exists tl :: Timeline(rows, scope, tl)
  {
    assert forall x :: x in rest ==> InScope(rows - {i}, scope, x);
    var k := Place(rows, rest, i);
    var tl := rest[..k] + [i] + rest[k..];
    Members(rest, k, i);
    assert forall x :: x in tl <==> InScope(rows, scope, x);
    assert Descending(rows, tl) by {
      hide Newer;
      assert forall j :: 0 <= j < |tl| ==> tl[j] == if j < k then rest[j] else if j == k then i else rest[j - 1];
    }
    assert Timeline(rows, scope, tl);
  }

  lemma Members(rest: seq<Id>, k: nat, i: Id)
    requires k <= |rest|
    ensures forall x :: x in rest[..k] + [i] + rest[k..] <==> x in rest || x == i
  {
    assert rest == rest[..k] + rest[k..];
  }

  // Where a message belongs in a descending sequence.
  lemma {:induction false} Place(rows: Messages, tl: seq<Id>, i: Id) returns (k: nat)
    requires Numbered(rows) && i in rows && i !in tl && Descending(rows, tl)
    ensures k <= |tl|
    ensures forall j :: 0 <= j < |tl| ==> tl[j] in rows && if j < k then Newer(rows[tl[j]], rows[i])
            else Newer(rows[i], rows[tl[j]])
  {
    if tl == [] {
      k := 0;
    } else {
      var l := |tl| - 1;
      assert tl[l] in tl;
      NewerTotal(rows[tl[l]], rows[i]);
      if Newer(rows[tl[l]], rows[i]) {
        k := |tl|;
        forall j | 0 <= j < l
          ensures Newer(rows[tl[j]], rows[i])
        {
          NewerTransitive(rows[tl[j]], rows[tl[l]], rows[i]);
        }
      } else {
        k := Place(rows, tl[..l], i);
      }
    }
  }

  // There is only one.
  lemma {:induction false} TimelineUnique(rows: Messages, scope: Scope, s: seq<Id>, t: seq<Id>)
    requires Timeline(rows, scope, s) && Timeline(rows, scope, t)
    ensures s == t
  {
    DescendingUnique(rows, s, t);
  }

  lemma {:induction false} DescendingUnique(rows: Messages, s: seq<Id>, t: seq<Id>)
    requires Descending(rows, s) && Descending(rows, t) && forall i :: i in s <==> i in t
    ensures s == t
  {
    if s != [] {
      assert s[0] in t;
    }
    if t != [] {
      assert t[0] in s;
    }
    if s != [] && t != [] {
      assert s[0] in t && t[0] in s;
      assert s[0] == t[0];
      assert s[1..] == t[1..] by {
        assert forall i :: i in s[1..] <==> i in s && i != s[0];
        assert forall i :: i in t[1..] <==> i in t && i != t[0];
        DescendingUnique(rows, s[1..], t[1..]);
      }
      assert s == [s[0]] + s[1..] && t == [t[0]] + t[1..];
    }
  }

  // The conversation list's last message is the first of the timeline.
  lemma LastIsFirst(rows: Messages, conv: Id, tl: seq<Id>, last: Option<Id>)
    requires Timeline(rows, In(conv), tl)
    ensures IsLast(rows, conv, last) <==> last == if tl == [] then None else Some(tl[0])
  {
    if tl != [] {
      assert tl[0] in tl;
      forall i | i in rows && rows[i].conv == conv && i != tl[0]
        ensures Newer(rows[tl[0]], rows[i])
      {
        assert InScope(rows, In(conv), i);
        var k :| 0 <= k < |tl| && tl[k] == i;
      }
    } else {
      assert forall i :: i in rows && rows[i].conv == conv ==> InScope(rows, In(conv), i);
    }
  }

  // The rows that a query may still return: on one side of a position, if there is one.
  predicate Beyond(row: Message, bound: Option<Position>, after: bool) {
    bound.None? || if after then Later(PositionOf(row), bound.value) else Later(bound.value, PositionOf(row))
  }

  // How many messages of a timeline are newer than a position.
  function NewerThan(rows: Messages, tl: seq<Id>, p: Position): (n: nat)
    requires forall i :: i in tl ==> i in rows
    ensures n <= |tl|
  {
    if tl == [] || !Later(PositionOf(rows[tl[0]]), p) then 0 else 1 + NewerThan(rows, tl[1..], p)
  }

  lemma {:induction false} NewerThanSplits(rows: Messages, tl: seq<Id>, p: Position)
    requires Descending(rows, tl)
    ensures forall j :: 0 <= j < |tl| ==>
              tl[j] in rows && (Later(PositionOf(rows[tl[j]]), p) <==> j < NewerThan(rows, tl, p))
  {
    if tl != [] {
      if Later(PositionOf(rows[tl[0]]), p) {
        NewerThanSplits(rows, tl[1..], p);
      } else {
        assert forall j :: 1 <= j < |tl| ==> Newer(rows[tl[0]], rows[tl[j]]);
      }
    }
  }

  lemma {:induction false} NewerThanIs(rows: Messages, tl: seq<Id>, p: Position, k: nat)
    requires (forall i :: i in tl ==> i in rows) && k <= |tl|
    requires forall j :: 0 <= j < k ==> Later(PositionOf(rows[tl[j]]), p)
    requires k < |tl| ==> !Later(PositionOf(rows[tl[k]]), p)
    ensures NewerThan(rows, tl, p) == k
  {
    if k > 0 {
      NewerThanIs(rows, tl[1..], p, k - 1);
    }
  }

  // ORDER BY ... LIMIT 1: the first row of a query.
  method Best(rows: Messages, scope: Scope, bound: Option<Position>, after: bool) returns (best: Option<Id>)
    requires Numbered(rows)
    ensures best.None? ==> forall i :: InScope(rows, scope, i) ==> !Beyond(rows[i], bound, after)
    ensures best.Some? ==>
              best.value in rows && InScope(rows, scope, best.value) && Beyond(rows[best.value], bound, after)
    ensures best.Some? ==> forall i :: InScope(rows, scope, i) && Beyond(rows[i], bound, after) && i != best.value ==>
                             if after then Newer(rows[i], rows[best.value]) else Newer(rows[best.value], rows[i])
  {
    best := None;
    var rest := rows.Keys;
    while rest != {}
      invariant rest <= rows.Keys
      invariant best.Some? ==>
                  best.value !in rest && InScope(rows, scope, best.value) && Beyond(rows[best.value], bound, after)
      invariant forall i :: i !in rest && InScope(rows, scope, i) && Beyond(rows[i], bound, after) ==>
                  best.Some? && (i == best.value || if after then Newer(rows[i], rows[best.value])
                                 else Newer(rows[best.value], rows[i]))
      decreases rest
    {
      var i :| i in rest;
      rest := rest - {i};
      if InScope(rows, scope, i) && Beyond(rows[i], bound, after) {
        if best.None? {
          best := Some(i);
        } else {
          NewerTotal(rows[i], rows[best.value]);
          if Newer(if after then rows[best.value] else rows[i], if after then rows[i] else rows[best.value]) {
            best := Some(i);
          }
        }
      }
    }
  }

  // Whether the query of a cursor knows where to start.
  predicate Resolves(rows: Messages, scope: Scope, cursor: Cursor) {
    cursor.local == 0 ==> InScope(rows, scope, cursor.id)
  }

  // Where a cursor points: an old cursor takes its order from the row it names.
  function Resolved(rows: Messages, scope: Scope, cursor: Cursor): Position
    requires Resolves(rows, scope, cursor)
  {
    if cursor.local == 0 then Position(cursor.at, rows[cursor.id].order, rows[cursor.id].local)
    else Position(cursor.at, cursor.order, cursor.local)
  }

  // How many messages are not older than a position.
  function NotOlderThan(rows: Messages, tl: seq<Id>, p: Position): (n: nat)
    requires forall i :: i in tl ==> i in rows
    ensures n <= |tl|
  {
    var n := NewerThan(rows, tl, p);
    if n < |tl| && PositionOf(rows[tl[n]]) == p then n + 1 else n
  }

  function Least(a: int, b: int): int {
    if a < b then a else b
  }

  // Where in a timeline a query starts to read.
  function Entry(rows: Messages, tl: seq<Id>, bound: Option<Position>, after: bool): (n: nat)
    requires forall i :: i in tl ==> i in rows
    ensures n <= |tl|
  {
    if bound.None? then 0 else if after then NewerThan(rows, tl, bound.value) else NotOlderThan(rows, tl, bound.value)
  }

  // The part of a timeline that a query returns.
  function Slice(rows: Messages, tl: seq<Id>, bound: Option<Position>, after: bool, limit: nat): seq<Id>
    requires forall i :: i in tl ==> i in rows
  {
    var n := Entry(rows, tl, bound, after);
    if after then tl[n - Least(limit, n)..n] else tl[n..n + Least(limit, |tl| - n)]
  }

  // A query leaves exactly one end of a timeline: m is where that end starts or stops.
  ghost predicate Leaves(rows: Messages, tl: seq<Id>, bound: Option<Position>, after: bool, m: nat) {
    m <= |tl| && forall j :: 0 <= j < |tl| ==>
        tl[j] in rows && (Beyond(rows[tl[j]], bound, after) <==> if after then j < m else j >= m)
  }

  lemma QueryLeaves(rows: Messages, scope: Scope, tl: seq<Id>, bound: Option<Position>, after: bool)
    requires Numbered(rows) && Timeline(rows, scope, tl) && (after ==> bound.Some?)
    ensures Leaves(rows, tl, bound, after, Entry(rows, tl, bound, after))
  {
    if bound.Some? {
      NewerThanSplits(rows, tl, bound.value);
      var n := NewerThan(rows, tl, bound.value);
      forall j | 0 <= j < |tl| && !after
        ensures Later(bound.value, PositionOf(rows[tl[j]])) <==> j >= NotOlderThan(rows, tl, bound.value)
      {
        if n < j {
          assert Newer(rows[tl[n]], rows[tl[j]]);
        }
      }
    }
  }

  // The first row of a query is next to what was read already.
  lemma BestIsNext(rows: Messages, scope: Scope, tl: seq<Id>, bound: Option<Position>, after: bool, m: nat, best: Id)
    requires Timeline(rows, scope, tl) && Leaves(rows, tl, bound, after, m)
    requires InScope(rows, scope, best) && Beyond(rows[best], bound, after)
    requires forall i :: InScope(rows, scope, i) && Beyond(rows[i], bound, after) && i != best ==>
               if after then Newer(rows[i], rows[best]) else Newer(rows[best], rows[i])
    ensures if after then m > 0 && best == tl[m - 1] else m < |tl| && best == tl[m]
    ensures Leaves(rows, tl, Some(PositionOf(rows[best])), after, if after then m - 1 else m + 1)
  {
    var k :| 0 <= k < |tl| && tl[k] == best;
    var e := if after then m - 1 else m;
    assert tl[e] in tl && InScope(rows, scope, tl[e]);
    assert k == e;
    assert forall j :: 0 <= j < e ==> Newer(rows[tl[j]], rows[best]);
    assert forall j :: e < j < |tl| ==> Newer(rows[best], rows[tl[j]]);
  }

  method Reversed(s: seq<Id>) returns (r: seq<Id>)
    ensures |r| == |s| && forall j :: 0 <= j < |s| ==> r[j] == s[|s| - 1 - j]
  {
    r := s;
    var i := 0;
    while i < |s| / 2
      invariant 0 <= i <= |s| / 2 && |r| == |s|
      invariant forall j :: 0 <= j < i ==> r[j] == s[|s| - 1 - j] && r[|s| - 1 - j] == s[j]
      invariant forall j :: i <= j < |s| - i ==> r[j] == s[j]
    {
      var j := |s| - 1 - i;
      var a, b := r[i], r[j];
      r := r[i := b][j := a];
      i := i + 1;
    }
    forall j | 0 <= j < |s|
      ensures r[j] == s[|s| - 1 - j]
    {
      if j >= |s| - i {
        assert r[|s| - 1 - (|s| - 1 - j)] == s[|s| - 1 - j];
      }
    }
  }

  // listMessages
  method ListMessages(rows: Messages, scope: Scope, cursor: Option<Cursor>, after: bool, limit: nat, ghost tl: seq<Id>)
    returns (r: Result<seq<Id>>)
    requires Numbered(rows) && Timeline(rows, scope, tl) && (after ==> cursor.Some?)
    ensures cursor.Some? && !Resolves(rows, scope, cursor.value) ==> r == Err(Invalid)
    ensures cursor.Some? && Resolves(rows, scope, cursor.value) ==>
              r == Ok(Slice(rows, tl, Some(Resolved(rows, scope, cursor.value)), after, limit))
    ensures cursor.None? ==> r == Ok(Slice(rows, tl, None, after, limit))
  {
    hide NewerThan, NotOlderThan, Later;
    if cursor.Some? && cursor.value.local == 0 && !InScope(rows, scope, cursor.value.id) {
      return Err(Invalid);
    }
    var bound := if cursor.Some? then Some(Resolved(rows, scope, cursor.value)) else None;
    var messages := ReadRows(rows, scope, bound, after, limit, tl);
    if after {
      messages := Reversed(messages);
    }
    assert messages == Slice(rows, tl, bound, after, limit);
    return Ok(messages);
  }

  // The index of the k-th row that a query reads.
  function Index(after: bool, n: nat, k: nat): int {
    if after then n - 1 - k else n + k
  }

  // What a query has read after k rows, and what it still has to.
  ghost predicate HasRead(rows: Messages, tl: seq<Id>, after: bool, n: nat, messages: seq<Id>, at: Option<Position>) {
    && (if after then |messages| <= n else n + |messages| <= |tl|)
    && (forall j :: 0 <= j < |messages| ==> 0 <= Index(after, n, j) < |tl| && messages[j] == tl[Index(after, n, j)])
    && Leaves(rows, tl, at, after, if after then n - |messages| else n + |messages|)
  }

  lemma ReadsOn(rows: Messages, scope: Scope, tl: seq<Id>, after: bool, n: nat, messages: seq<Id>, at: Option<Position>,
                best: Id)
    requires Timeline(rows, scope, tl) && n <= |tl| && HasRead(rows, tl, after, n, messages, at)
    requires InScope(rows, scope, best) && Beyond(rows[best], at, after)
    requires forall i :: InScope(rows, scope, i) && Beyond(rows[i], at, after) && i != best ==>
               if after then Newer(rows[i], rows[best]) else Newer(rows[best], rows[i])
    ensures HasRead(rows, tl, after, n, messages + [best], Some(PositionOf(rows[best])))
  {
    hide Timeline, Leaves, Later;
    BestIsNext(rows, scope, tl, at, after, if after then n - |messages| else n + |messages|, best);
  }

  lemma ReadsAll(rows: Messages, scope: Scope, tl: seq<Id>, after: bool, n: nat, messages: seq<Id>,
                 at: Option<Position>)
    requires Timeline(rows, scope, tl) && n <= |tl| && HasRead(rows, tl, after, n, messages, at)
    requires forall i :: InScope(rows, scope, i) ==> !Beyond(rows[i], at, after)
    ensures |messages| == if after then n else |tl| - n
  {
    if 0 <= Index(after, n, |messages|) < |tl| {
      MoreToRead(rows, scope, tl, after, n, messages, at);
    }
  }

  lemma MoreToRead(rows: Messages, scope: Scope, tl: seq<Id>, after: bool, n: nat, messages: seq<Id>,
                   at: Option<Position>)
    requires Timeline(rows, scope, tl) && n <= |tl| && HasRead(rows, tl, after, n, messages, at)
    requires 0 <= Index(after, n, |messages|) < |tl|
    ensures exists i :: InScope(rows, scope, i) && Beyond(rows[i], at, after)
  {
    var e := Index(after, n, |messages|);
    assert tl[e] in tl && InScope(rows, scope, tl[e]);
  }

  // The rows of a query in its order: newest first, or oldest first when it looks for newer messages.
  method ReadRows(rows: Messages, scope: Scope, bound: Option<Position>, after: bool, limit: nat, ghost tl: seq<Id>)
    returns (messages: seq<Id>)
    requires Numbered(rows) && Timeline(rows, scope, tl) && (after ==> bound.Some?)
    ensures |messages| == |Slice(rows, tl, bound, after, limit)|
    ensures forall j :: 0 <= j < |messages| ==>
            messages[j] == Slice(rows, tl, bound, after, limit)[if after then |messages| - 1 - j else j]
  {
    hide *;
    TimelineInRows(rows, scope, tl);
    StartsReading(rows, scope, tl, bound, after);
    ghost var n := Entry(rows, tl, bound, after);
    messages := [];
    var at, more := bound, true;
    while |messages| < limit && more
      invariant |messages| <= limit && HasRead(rows, tl, after, n, messages, at)
      invariant !more ==> |messages| == if after then n else |tl| - n
      decreases limit - |messages|, more
    {
      var best := Best(rows, scope, at, after);
      if best.None? {
        ReadsAll(rows, scope, tl, after, n, messages, at);
        more := false;
      } else {
        ReadsOn(rows, scope, tl, after, n, messages, at, best.value);
        messages := messages + [best.value];
        at := Some(PositionOf(rows[best.value]));
      }
    }
    ReadIsSlice(rows, tl, bound, after, limit, messages, at);
  }

  lemma TimelineInRows(rows: Messages, scope: Scope, tl: seq<Id>)
    requires Timeline(rows, scope, tl)
    ensures forall i :: i in tl ==> i in rows
  {
  }

  lemma StartsReading(rows: Messages, scope: Scope, tl: seq<Id>, bound: Option<Position>, after: bool)
    requires Numbered(rows) && Timeline(rows, scope, tl) && (after ==> bound.Some?)
    ensures HasRead(rows, tl, after, Entry(rows, tl, bound, after), [], bound)
  {
    hide NewerThan, NotOlderThan, Beyond;
    QueryLeaves(rows, scope, tl, bound, after);
  }

  lemma ReadIsSlice(rows: Messages, tl: seq<Id>, bound: Option<Position>, after: bool, limit: nat, messages: seq<Id>,
                    at: Option<Position>)
    requires forall i :: i in tl ==> i in rows
    requires var n := Entry(rows, tl, bound, after);
             HasRead(rows, tl, after, n, messages, at) && |messages| <= limit &&
                 (|messages| == limit || |messages| == if after then n else |tl| - n)
    ensures |messages| == |Slice(rows, tl, bound, after, limit)|
    ensures forall j :: 0 <= j < |messages| ==>
            messages[j] == Slice(rows, tl, bound, after, limit)[if after then |messages| - 1 - j else j]
  {
    hide Entry, Leaves;
  }

  // writeMessagesPage
  method WriteMessagesPage(rows: Messages, read: seq<Id>, limit: nat, hasNewer: bool) returns (page: Page)
    requires limit >= 1 && forall i :: i in read ==> i in rows
    ensures page.items == read[..Least(limit, |read|)]
    ensures page.next == if |read| > limit then Some(CursorOf(rows, read[limit - 1])) else None
    ensures page.previous == if hasNewer && read != [] then Some(CursorOf(rows, read[0])) else None
  {
    var messages := read;
    var next: Option<Cursor> := None;
    if |messages| > limit {
      messages := messages[..limit];
      next := Some(CursorOf(rows, messages[|messages| - 1]));
    }
    var previous: Option<Cursor> := None;
    if hasNewer && |messages| > 0 {
      previous := Some(CursorOf(rows, messages[0]));
    }
    page := Page(messages, next, previous);
  }

  // Items lo to hi of a timeline, with the cursors to go on in both directions.
  function PageOf(rows: Messages, tl: seq<Id>, lo: nat, hi: nat, next: bool, previous: bool): Page
    requires lo <= hi <= |tl| && (next || previous ==> lo < hi) && forall i :: i in tl ==> i in rows
  {
    Page(tl[lo..hi], if next then Some(CursorOf(rows, tl[hi - 1])) else None,
         if previous then Some(CursorOf(rows, tl[lo])) else None)
  }

  // A cursor that a page gives names a message of the timeline and points just behind it, and so does one from before
  // cursors held local orders.
  lemma CursorFinds(rows: Messages, scope: Scope, tl: seq<Id>, k: nat)
    requires Numbered(rows) && Timeline(rows, scope, tl) && k < |tl|
    ensures tl[k] in rows && Resolves(rows, scope, CursorOf(rows, tl[k]))
    ensures var p := Resolved(rows, scope, CursorOf(rows, tl[k]));
            p == PositionOf(rows[tl[k]]) && NewerThan(rows, tl, p) == k && NotOlderThan(rows, tl, p) == k + 1
    ensures forall order ::
              var early := Cursor(rows[tl[k]].at, tl[k], order, 0);
              Resolves(rows, scope, early) && Resolved(rows, scope, early) == PositionOf(rows[tl[k]])
  {
    assert tl[k] in tl;
    var p := PositionOf(rows[tl[k]]);
    assert forall j :: 0 <= j < k ==> tl[j] in rows && Newer(rows[tl[j]], rows[tl[k]]);
    NewerThanIs(rows, tl, p, k);
  }

  // listConversationMessages without a target, and listMessages: older messages from a cursor on. Only a conversation's
  // pages lead back: listMessages never says that there are newer messages.
  method OlderPage(rows: Messages, scope: Scope, cursor: Option<Cursor>, limit: nat,
                   ghost tl: seq<Id>) returns (r: Result<Page>)
    requires Numbered(rows) && Timeline(rows, scope, tl) && limit >= 1
    ensures cursor.Some? && !Resolves(rows, scope, cursor.value) <==> r == Err(Invalid)
    ensures r.Ok? || r == Err(Invalid)
    ensures r.Ok? ==>
              var lo := if cursor.None? then 0 else NotOlderThan(rows, tl, Resolved(rows, scope, cursor.value));
              var hi := lo + Least(limit, |tl| - lo);
              r.value == PageOf(rows, tl, lo, hi, hi < |tl|, scope.In? && cursor.Some? && lo < hi)
  {
    hide *;
    TimelineInRows(rows, scope, tl);
    var read := ListMessages(rows, scope, cursor, false, limit + 1, tl);
    if read.Err? {
      return Err(Invalid);
    }
    ghost var bound := if cursor.None? then None else Some(Resolved(rows, scope, cursor.value));
    SliceOlder(rows, tl, bound, limit + 1);
    var hasNewer := scope.In? && cursor.Some?;
    var page := WriteMessagesPage(rows, read.value, limit, hasNewer);
    OlderAnswer(rows, tl, read.value, limit, hasNewer, if bound.None? then 0 else NotOlderThan(rows, tl, bound.value),
                page);
    return Ok(page);
  }

  lemma SliceOlder(rows: Messages, tl: seq<Id>, bound: Option<Position>, limit: nat)
    requires forall i :: i in tl ==> i in rows
    ensures var n := if bound.None? then 0 else NotOlderThan(rows, tl, bound.value);
            Slice(rows, tl, bound, false, limit) == tl[n..n + Least(limit, |tl| - n)]
    ensures forall i :: i in Slice(rows, tl, bound, false, limit) ==> i in rows
  {
    hide NotOlderThan;
  }

  lemma SliceNewer(rows: Messages, tl: seq<Id>, p: Position, limit: nat)
    requires forall i :: i in tl ==> i in rows
    ensures var n := NewerThan(rows, tl, p);
            Slice(rows, tl, Some(p), true, limit) == tl[n - Least(limit, n)..n]
  {
    hide NewerThan;
  }

  lemma SlicesAround(rows: Messages, tl: seq<Id>, p: Position, k: nat, olderLimit: nat, newerLimit: nat)
    requires (forall i :: i in tl ==> i in rows) && k < |tl| && NewerThan(rows, tl, p) == k
    requires NotOlderThan(rows, tl, p) == k + 1
    ensures var older := Slice(rows, tl, Some(p), false, olderLimit);
            |older| == Least(olderLimit, |tl| - k - 1) && forall j :: 0 <= j < |older| ==> older[j] == tl[k + 1 + j]
    ensures var newer := Slice(rows, tl, Some(p), true, newerLimit);
            |newer| == Least(newerLimit, k) && forall j :: 0 <= j < |newer| ==> newer[j] == tl[k - |newer| + j]
  {
    hide NewerThan, NotOlderThan;
  }

  lemma OlderAnswer(rows: Messages, tl: seq<Id>, read: seq<Id>, limit: nat, hasNewer: bool, lo: nat, page: Page)
    requires limit >= 1 && lo <= |tl| && (forall i :: i in tl ==> i in rows)
    requires read == tl[lo..lo + Least(limit + 1, |tl| - lo)]
    requires forall i :: i in read ==> i in rows
    requires page.items == read[..Least(limit, |read|)]
    requires page.next == if |read| > limit then Some(CursorOf(rows, read[limit - 1])) else None
    requires page.previous == if hasNewer && read != [] then Some(CursorOf(rows, read[0])) else None
    ensures var hi := lo + Least(limit, |tl| - lo); page == PageOf(rows, tl, lo, hi, hi < |tl|, hasNewer && lo < hi)
  {
    var hi := lo + Least(limit, |tl| - lo);
    assert page.items == tl[lo..hi];
    assert read != [] ==> read[0] == tl[lo];
    assert |read| > limit ==> read[limit - 1] == tl[hi - 1];
  }

  // messageWindow with after_cursor: the adjacent newer messages.
  method AfterPage(rows: Messages, scope: Scope, cursor: Cursor, limit: nat,
                   ghost tl: seq<Id>) returns (r: Result<Page>)
    requires Numbered(rows) && Timeline(rows, scope, tl) && limit >= 1
    ensures !Resolves(rows, scope, cursor) <==> r == Err(Invalid)
    ensures r.Ok? || r == Err(Invalid)
    ensures r.Ok? ==>
              var hi := NewerThan(rows, tl, Resolved(rows, scope, cursor));
              var lo := hi - Least(limit, hi);
              r.value == PageOf(rows, tl, lo, hi, lo < hi, lo > 0)
  {
    hide *;
    TimelineInRows(rows, scope, tl);
    var read := ListMessages(rows, scope, Some(cursor), true, limit + 1, tl);
    if read.Err? {
      return Err(Invalid);
    }
    SliceNewer(rows, tl, Resolved(rows, scope, cursor), limit + 1);
    var page := AfterAnswer(rows, read.value, limit, tl, NewerThan(rows, tl, Resolved(rows, scope, cursor)));
    return Ok(page);
  }

  // messageWindow from an answer of one message more than it shows.
  method AfterAnswer(rows: Messages, read: seq<Id>, limit: nat, ghost tl: seq<Id>, ghost hi: nat) returns (page: Page)
    requires limit >= 1 && hi <= |tl| && forall i :: i in tl ==> i in rows
    requires read == tl[hi - Least(limit + 1, hi)..hi]
    ensures var lo := hi - Least(limit, hi); page == PageOf(rows, tl, lo, hi, lo < hi, lo > 0)
  {
    ghost var lo := hi - Least(limit, hi);
    var messages := read;
    var next, previous: Option<Cursor> := None, None;
    if |messages| > limit {
      messages := messages[1..];
      assert messages[0] == tl[lo] && tl[lo] in tl;
      previous := Some(CursorOf(rows, messages[0]));
    }
    assert messages == tl[lo..hi];
    if |messages| > 0 {
      assert messages[|messages| - 1] == tl[hi - 1] && tl[hi - 1] in tl;
      next := Some(CursorOf(rows, messages[|messages| - 1]));
    }
    page := Page(messages, next, previous);
  }

  // messageWindow with around_message_id: a slice around the target, which keeps one place for it.
  method Window(rows: Messages, conv: Id, target: Id, limit: nat, ghost tl: seq<Id>) returns (r: Result<Page>)
    requires Numbered(rows) && Timeline(rows, In(conv), tl) && limit >= 1
    ensures target !in tl <==> r == Err(NotFound)
    ensures r.Ok? || r == Err(NotFound)
    ensures forall k :: 0 <= k < |tl| && tl[k] == target ==>
              var lo, hi := k - Least((limit - 1) / 2, k), k + 1 + Least(limit / 2, |tl| - k - 1);
              r == Ok(PageOf(rows, tl, lo, hi, hi < |tl|, lo > 0))
  {
    if target !in rows || rows[target].conv != conv {
      assert !InScope(rows, In(conv), target);
      return Err(NotFound);
    }
    assert InScope(rows, In(conv), target);
    ghost var k :| 0 <= k < |tl| && tl[k] == target;
    DistinctIndexes(rows, tl);
    var page := WindowOf(rows, conv, target, limit, tl, k);
    return Ok(page);
  }

  method WindowOf(rows: Messages, conv: Id, target: Id, limit: nat, ghost tl: seq<Id>,
                  ghost k: nat) returns (page: Page)
    requires Numbered(rows) && Timeline(rows, In(conv), tl) && limit >= 1 && k < |tl| && tl[k] == target
    ensures var lo, hi := k - Least((limit - 1) / 2, k), k + 1 + Least(limit / 2, |tl| - k - 1);
            page == PageOf(rows, tl, lo, hi, hi < |tl|, lo > 0)
  {
    hide *;
    TimelineInRows(rows, In(conv), tl);
    CursorFinds(rows, In(conv), tl, k);
    SlicesAround(rows, tl, PositionOf(rows[target]), k, limit / 2 + 1, (limit - 1) / 2 + 1);
    var olderLimit, newerLimit := limit / 2, (limit - 1) / 2;
    var cursor := CursorOf(rows, target);
    var foundOlder := ListMessages(rows, In(conv), Some(cursor), false, olderLimit + 1, tl);
    var foundNewer := ListMessages(rows, In(conv), Some(cursor), true, newerLimit + 1, tl);
    page := Assembled(rows, target, foundOlder.value, foundNewer.value, olderLimit, newerLimit, tl, k);
  }

  // The older half of messageWindow, from an answer of one message more than it shows.
  method OlderHalf(rows: Messages, target: Id, found: seq<Id>, limit: nat, ghost tl: seq<Id>, ghost k: nat)
    returns (older: seq<Id>, next: Option<Cursor>)
    requires k < |tl| && tl[k] == target && forall i :: i in tl ==> i in rows
    requires |found| == Least(limit + 1, |tl| - k - 1) && forall j :: 0 <= j < |found| ==> found[j] == tl[k + 1 + j]
    ensures |older| == Least(limit, |tl| - k - 1) && forall j :: 0 <= j < |older| ==> older[j] == tl[k + 1 + j]
    ensures var hi := k + 1 + |older|; next == if hi < |tl| then Some(CursorOf(rows, tl[hi - 1])) else None
  {
    older, next := found, None;
    if |older| > limit {
      older := older[..limit];
      var last := target;
      if |older| > 0 {
        last := older[|older| - 1];
      }
      next := Some(CursorOf(rows, last));
    }
  }

  // The newer half of messageWindow, from an answer of one message more than it shows.
  method NewerHalf(rows: Messages, target: Id, found: seq<Id>, limit: nat, ghost tl: seq<Id>, ghost k: nat)
    returns (newer: seq<Id>, previous: Option<Cursor>)
    requires k < |tl| && tl[k] == target && forall i :: i in tl ==> i in rows
    requires |found| == Least(limit + 1, k) && forall j :: 0 <= j < |found| ==> found[j] == tl[k - |found| + j]
    ensures |newer| == Least(limit, k) && forall j :: 0 <= j < |newer| ==> newer[j] == tl[k - |newer| + j]
    ensures var lo := k - |newer|; previous == if lo > 0 then Some(CursorOf(rows, tl[lo])) else None
  {
    newer, previous := found, None;
    if |newer| > limit {
      newer := newer[|newer| - limit..];
      var first := target;
      if |newer| > 0 {
        first := newer[0];
      }
      previous := Some(CursorOf(rows, first));
    }
  }

  // messageWindow from two answers, each of one message more than it shows.
  method Assembled(rows: Messages, target: Id, olderFound: seq<Id>, newerFound: seq<Id>, olderLimit: nat,
                   newerLimit: nat, ghost tl: seq<Id>, ghost k: nat)
    returns (page: Page)
    requires k < |tl| && tl[k] == target && forall i :: i in tl ==> i in rows
    requires |olderFound| == Least(olderLimit + 1, |tl| - k - 1) && forall j :: 0 <= j < |olderFound| ==>
             olderFound[j] == tl[k + 1 + j]
    requires |newerFound| == Least(newerLimit + 1, k) && forall j :: 0 <= j < |newerFound| ==>
             newerFound[j] == tl[k - |newerFound| + j]
    ensures var lo, hi := k - Least(newerLimit, k), k + 1 + Least(olderLimit, |tl| - k - 1);
            page == PageOf(rows, tl, lo, hi, hi < |tl|, lo > 0)
  {
    var older, next := OlderHalf(rows, target, olderFound, olderLimit, tl, k);
    var newer, previous := NewerHalf(rows, target, newerFound, newerLimit, tl, k);
    WindowJoined(tl, newer, older, k - |newer|, k, k + 1 + |older|);
    var messages := newer + [target];
    messages := messages + older;
    page := Page(messages, next, previous);
  }

  lemma WindowJoined(tl: seq<Id>, newer: seq<Id>, older: seq<Id>, lo: nat, k: nat, hi: nat)
    requires lo <= k < hi <= |tl|
    requires |newer| == k - lo && forall j :: 0 <= j < |newer| ==> newer[j] == tl[lo + j]
    requires |older| == hi - k - 1 && forall j :: 0 <= j < |older| ==> older[j] == tl[k + 1 + j]
    ensures newer + [tl[k]] + older == tl[lo..hi]
  {
  }

  // A message is on a timeline once.
  lemma DistinctIndexes(rows: Messages, tl: seq<Id>)
    requires Descending(rows, tl)
    ensures forall j, k :: 0 <= j < k < |tl| ==> tl[j] != tl[k]
  {
    assert forall j, k :: 0 <= j < k < |tl| ==> Newer(rows[tl[j]], rows[tl[k]]);
  }

  // A window holds at most limit messages, all of them next to each other, and its target once.
  lemma WindowFits(rows: Messages, tl: seq<Id>, k: nat, limit: nat)
    requires Descending(rows, tl) && k < |tl| && limit >= 1
    ensures var lo, hi := k - Least((limit - 1) / 2, k), k + 1 + Least(limit / 2, |tl| - k - 1);
            && 0 <= lo <= k < hi <= |tl| && hi - lo <= limit
            && (forall j :: lo <= j < hi && tl[j] == tl[k] ==> j == k)
            && (lo > 0 && hi < |tl| ==> hi - lo == limit)
  {
    DistinctIndexes(rows, tl);
  }

  // A reader who follows every next cursor.
  method ReadEverything(rows: Messages, scope: Scope, limit: nat, ghost tl: seq<Id>) returns (visited: seq<Id>)
    requires Numbered(rows) && Timeline(rows, scope, tl) && limit >= 1
    ensures visited == tl
  {
    hide NewerThan, NotOlderThan, Numbered, Timeline, Resolves, Resolved;
    TimelineInRows(rows, scope, tl);
    var r := OlderPage(rows, scope, None, limit, tl);
    var page := r.value;
    visited := page.items;
    while page.next.Some?
      invariant |visited| <= |tl| && visited == tl[..|visited|]
      invariant page.next.None? ==> |visited| == |tl|
      invariant page.next.Some? ==>
                  0 < |visited| < |tl| && tl[|visited| - 1] in rows &&
                  page.next.value == CursorOf(rows, tl[|visited| - 1])
      decreases |tl| - |visited|, page.next.Some?
    {
      CursorFinds(rows, scope, tl, |visited| - 1);
      r := OlderPage(rows, scope, page.next, limit, tl);
      page := r.value;
      visited := visited + page.items;
    }
  }

  lemma SlicesJoin(tl: seq<Id>, a: nat, b: nat, c: nat)
    requires a <= b <= c <= |tl|
    ensures tl[a..b] + tl[b..c] == tl[a..c]
  {
  }

  // A reader who follows every previous cursor from a message on.
  method ReadNewer(rows: Messages, scope: Scope, from: nat, limit: nat, ghost tl: seq<Id>,
                   start: Id) returns (visited: seq<Id>)
    requires Numbered(rows) && Timeline(rows, scope, tl) && limit >= 1 && from < |tl| && tl[from] == start
    ensures visited == tl[..from]
  {
    hide NewerThan, NotOlderThan, Numbered, Timeline, Resolves, Resolved;
    TimelineInRows(rows, scope, tl);
    CursorFinds(rows, scope, tl, from);
    var r := AfterPage(rows, scope, CursorOf(rows, start), limit, tl);
    var page := r.value;
    visited := page.items;
    while page.previous.Some?
      invariant |visited| <= from && visited == tl[from - |visited|..from]
      invariant page.previous.None? ==> |visited| == from
      invariant page.previous.Some? ==>
                  0 < |visited| < from && tl[from - |visited|] in rows &&
                  page.previous.value == CursorOf(rows, tl[from - |visited|])
      decreases from - |visited|, page.previous.Some?
    {
      ghost var hi := from - |visited|;
      CursorFinds(rows, scope, tl, hi);
      r := AfterPage(rows, scope, page.previous.value, limit, tl);
      page := r.value;
      assert page.items == tl[hi - Least(limit, hi)..hi];
      SlicesJoin(tl, hi - Least(limit, hi), hi, from);
      visited := page.items + visited;
    }
  }
}
