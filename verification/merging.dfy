// Tables whose rows merge: one row for each chat, target and linked person, holding the join of
// every value ever reported for that person under any of their JIDs.
module Merging {
  import opened Links
  import opened Wrappers

  datatype Slot = Slot(chat: Jid, target: string, who: Jid)

  datatype Report<V> = Report(slot: Slot, value: V)

  type Table<V> = map<Slot, V>

  ghost predicate Semilattice<V(!new)>(join: (V, V) -> V) {
    && (forall a :: join(a, a) == a)
    && (forall a, b :: join(a, b) == join(b, a))
    && (forall a, b, c :: join(join(a, b), c) == join(a, join(b, c)))
  }

  ghost predicate Below<V>(join: (V, V) -> V, a: V, b: V) {
    join(a, b) == b
  }

  ghost predicate Bounds<V>(join: (V, V) -> V, vs: iset<V>, u: V) {
    forall x :: x in vs ==> Below(join, x, u)
  }

  // v is the least upper bound of vs.
  ghost predicate IsJoin<V(!new)>(join: (V, V) -> V, vs: iset<V>, v: V) {
    Bounds(join, vs, v) && forall u :: Bounds(join, vs, u) ==> Below(join, v, u)
  }

  lemma JoinUnique<V(!new)>(join: (V, V) -> V, vs: iset<V>, v: V, w: V)
    requires Semilattice(join) && IsJoin(join, vs, v) && IsJoin(join, vs, w)
    ensures v == w
  {
    assert Below(join, v, w) && Below(join, w, v);
  }

  lemma JoinSingle<V(!new)>(join: (V, V) -> V, v: V)
    requires Semilattice(join)
    ensures IsJoin(join, iset{v}, v)
  {
  }

  lemma JoinAbove<V(!new)>(join: (V, V) -> V, a: V, b: V, u: V)
    requires Semilattice(join)
    ensures Below(join, a, join(a, b)) && Below(join, b, join(a, b))
    ensures Below(join, a, u) && Below(join, b, u) ==> Below(join, join(a, b), u)
  {
    assert join(a, join(a, b)) == join(join(a, a), b);
    assert join(b, join(a, b)) == join(b, join(b, a)) == join(join(b, b), a);
    assert join(join(a, b), u) == join(a, join(b, u));
  }

  lemma BelowTransitive<V(!new)>(join: (V, V) -> V, a: V, b: V, c: V)
    requires Semilattice(join) && Below(join, a, b) && Below(join, b, c)
    ensures Below(join, a, c)
  {
    assert join(a, c) == join(a, join(b, c)) == join(join(a, b), c);
  }

  lemma JoinOfTwo<V(!new)>(join: (V, V) -> V, vs: iset<V>, ws: iset<V>, v: V, w: V)
    requires Semilattice(join) && IsJoin(join, vs, v) && IsJoin(join, ws, w)
    ensures IsJoin(join, vs + ws, join(v, w))
  {
    forall x | x in vs + ws
      ensures Below(join, x, join(v, w))
    {
      JoinAbove(join, v, w, v);
      if x in vs {
        BelowTransitive(join, x, v, join(v, w));
      } else {
        BelowTransitive(join, x, w, join(v, w));
      }
    }
    forall u | Bounds(join, vs + ws, u)
      ensures Below(join, join(v, w), u)
    {
      assert Bounds(join, vs, u) && Bounds(join, ws, u);
      JoinAbove(join, v, w, u);
    }
  }

  // Values of all reports whose person is represented by slot.who.
  ghost function Group<V(!new)>(rep: Jid -> Jid, reports: set<Report<V>>, slot: Slot): iset<V> {
    iset e | e in reports && Lands(rep, e, slot) :: e.value
  }

  ghost predicate Lands<V>(rep: Jid -> Jid, e: Report<V>, slot: Slot) {
    e.slot.chat == slot.chat && e.slot.target == slot.target && rep(e.slot.who) == slot.who
  }

  function Lookup<V>(table: Table<V>, slot: Slot): Option<V> {
    if slot in table then Some(table[slot]) else None
  }

  function Combine<V>(join: (V, V) -> V, a: Option<V>, b: Option<V>): Option<V> {
    match (a, b)
    case (None, _) => b
    case (_, None) => a
    case (Some(v), Some(w)) => Some(join(v, w))
  }

  // No values, no row; otherwise the row holds their join.
  ghost predicate Holds<V(!new)>(join: (V, V) -> V, vs: iset<V>, row: Option<V>) {
    match row
    case None => vs == iset{}
    case Some(v) => vs != iset{} && IsJoin(join, vs, v)
  }

  lemma CombineHolds<V(!new)>(join: (V, V) -> V, vs: iset<V>, ws: iset<V>, a: Option<V>, b: Option<V>)
    requires Semilattice(join) && Holds(join, vs, a) && Holds(join, ws, b)
    ensures Holds(join, vs + ws, Combine(join, a, b))
  {
    if a == None {
      assert vs + ws == ws;
    } else if b == None {
      assert vs + ws == vs;
    } else {
      JoinOfTwo(join, vs, ws, a.value, b.value);
    }
  }

  // The table says, slot by slot, what the reports say.
  ghost predicate Correct<V(!new)>(join: (V, V) -> V, rep: Jid -> Jid, reports: set<Report<V>>, table: Table<V>) {
    forall slot :: Holds(join, Group(rep, reports, slot), Lookup(table, slot))
  }

  lemma SameGroup<V(!new)>(rep: Jid -> Jid, rep': Jid -> Jid, reports: set<Report<V>>, slot: Slot)
    requires forall j :: rep(j) == rep'(j)
    ensures Group(rep, reports, slot) == Group(rep', reports, slot)
  {
  }

  lemma CorrectSameRep<V(!new)>(join: (V, V) -> V, rep: Jid -> Jid, rep': Jid -> Jid, reports: set<Report<V>>,
                                table: Table<V>)
    requires Correct(join, rep, reports, table) && forall j :: rep(j) == rep'(j)
    ensures Correct(join, rep', reports, table)
  {
    forall slot
      ensures Holds(join, Group(rep', reports, slot), Lookup(table, slot))
    {
      SameGroup(rep, rep', reports, slot);
    }
  }

  // A correct table is determined by the set of reports and the linked people alone.
  lemma CorrectUnique<V(!new)>(join: (V, V) -> V, rep: Jid -> Jid, reports: set<Report<V>>, s: Table<V>, t: Table<V>)
    requires Semilattice(join) && Correct(join, rep, reports, s) && Correct(join, rep, reports, t)
    ensures s == t
  {
    forall slot
      ensures Lookup(s, slot) == Lookup(t, slot)
    {
      var vs := Group(rep, reports, slot);
      assert Holds(join, vs, Lookup(s, slot)) && Holds(join, vs, Lookup(t, slot));
      if slot in s && slot in t {
        JoinUnique(join, vs, s[slot], t[slot]);
      }
    }
    assert forall slot :: slot in s ==> Lookup(t, slot) == Some(s[slot]);
    assert forall slot :: slot in t ==> Lookup(s, slot) == Some(t[slot]);
  }

  lemma EmptyCorrect<V(!new)>(join: (V, V) -> V, rep: Jid -> Jid)
    ensures Correct<V>(join, rep, {}, map[])
  {
  }

  // INSERT ... ON CONFLICT DO UPDATE with a merging update.
  function Upsert<V>(join: (V, V) -> V, table: Table<V>, slot: Slot, v: V): Table<V> {
    table[slot := if slot in table then join(table[slot], v) else v]
  }

  // Saving a report in its person's row keeps the table correct.
  lemma UpsertCorrect<V(!new)>(join: (V, V) -> V, rep: Jid -> Jid, reports: set<Report<V>>, table: Table<V>,
                               e: Report<V>)
    requires Semilattice(join) && Correct(join, rep, reports, table)
    ensures Correct(join, rep, reports + {e}, Upsert(join, table, e.slot.(who := rep(e.slot.who)), e.value))
  {
    var home := e.slot.(who := rep(e.slot.who));
    var table' := Upsert(join, table, home, e.value);
    forall slot
      ensures Holds(join, Group(rep, reports + {e}, slot), Lookup(table', slot))
    {
      var vs, vs' := Group(rep, reports, slot), Group(rep, reports + {e}, slot);
      assert Holds(join, vs, Lookup(table, slot));
      if slot == home {
        assert vs' == vs + iset{e.value};
        JoinSingle(join, e.value);
        CombineHolds(join, vs, iset{e.value}, Lookup(table, slot), Some(e.value));
      } else {
        assert vs' == vs;
      }
    }
  }

  // INSERT ... SELECT of every row of `from` under `to`, then DELETE of the rows of `from`.
  function Rekey<V>(join: (V, V) -> V, table: Table<V>, from: Jid, to: Jid): Table<V> {
    var moved := set s | s in table && s.who == from :: s.(who := to);
    map slot | slot in table.Keys + moved && slot.who != from ::
      if slot !in moved then table[slot]
      else if slot in table then join(table[slot], table[slot.(who := from)])
      else table[slot.(who := from)]
  }

  lemma RekeyRow<V>(join: (V, V) -> V, table: Table<V>, from: Jid, to: Jid, slot: Slot)
    requires from != to
    ensures Lookup(Rekey(join, table, from, to), slot) ==
            if slot.who == from then None
            else if slot.who == to then Combine(join, Lookup(table, slot), Lookup(table, slot.(who := from)))
            else Lookup(table, slot)
  {
    var moved := set s | s in table && s.who == from :: s.(who := to);
    if slot.who == to && slot.(who := from) in table {
      assert slot.(who := from).(who := to) == slot;
      assert slot in moved;
    }
  }

  ghost function Merged(rep: Jid -> Jid, from: Jid, to: Jid): Jid -> Jid {
    j => if rep(j) == from then to else rep(j)
  }

  lemma RekeyGroup<V(!new)>(rep: Jid -> Jid, reports: set<Report<V>>, from: Jid, to: Jid, slot: Slot)
    requires from != to
    ensures Group(Merged(rep, from, to), reports, slot) ==
            if slot.who == from then iset{}
            else if slot.who == to then Group(rep, reports, slot) + Group(rep, reports, slot.(who := from))
            else Group(rep, reports, slot)
  {
  }

  // Moving one person's rows under another name keeps the table correct for the merged people.
  lemma RekeyCorrect<V(!new)>(join: (V, V) -> V, rep: Jid -> Jid, reports: set<Report<V>>, table: Table<V>, from: Jid,
                              to: Jid)
    requires Semilattice(join) && Correct(join, rep, reports, table) && from != to
    ensures Correct(join, Merged(rep, from, to), reports, Rekey(join, table, from, to))
  {
    forall slot
      ensures Holds(join, Group(Merged(rep, from, to), reports, slot), Lookup(Rekey(join, table, from, to), slot))
    {
      RekeyRow(join, table, from, to, slot);
      RekeyGroup(rep, reports, from, to, slot);
      var source := slot.(who := from);
      CombineHolds(join, Group(rep, reports, slot), Group(rep, reports, source), Lookup(table, slot),
                   Lookup(table, source));
    }
  }
}
