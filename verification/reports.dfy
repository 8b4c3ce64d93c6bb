// The values that message_reactions and message_receipts merge, and why each merge is a semilattice.
module Reports {
  import opened Merging
  import opened TextOrder
  import opened Wrappers

  // Times are instants: milliseconds for reactions, nanoseconds for receipts.
  datatype Reaction = Reaction(emoji: string, at: int, event: string)

  // Row-value comparison of (at_ms, emoji = '', event_id, emoji).
  predicate Older(a: Reaction, b: Reaction) {
    a.at < b.at || (a.at == b.at && (
      (a.emoji != "" && b.emoji == "") || ((a.emoji == "") == (b.emoji == "") && (
        Less(a.event, b.event) || (a.event == b.event && Less(a.emoji, b.emoji))))))
  }

  // mergeReaction: the incoming row replaces the stored one only when it is greater.
  function Latest(stored: Reaction, incoming: Reaction): Reaction {
    if Older(stored, incoming) then incoming else stored
  }

  lemma OlderTotal(a: Reaction, b: Reaction)
    ensures a == b || Older(a, b) || Older(b, a)
    ensures !(Older(a, b) && Older(b, a)) && !Older(a, a)
  {
    LessTotal(a.event, b.event);
    LessTotal(a.emoji, b.emoji);
    LessIrreflexive(a.event);
    LessIrreflexive(a.emoji);
    if Less(a.event, b.event) {
      LessAsymmetric(a.event, b.event);
    }
    if Less(a.emoji, b.emoji) {
      LessAsymmetric(a.emoji, b.emoji);
    }
  }

  lemma OlderTransitive(a: Reaction, b: Reaction, c: Reaction)
    requires Older(a, b) && Older(b, c)
    ensures Older(a, c)
  {
    if Less(a.event, b.event) && Less(b.event, c.event) {
      LessTransitive(a.event, b.event, c.event);
    }
    if Less(a.emoji, b.emoji) && Less(b.emoji, c.emoji) {
      LessTransitive(a.emoji, b.emoji, c.emoji);
    }
  }

  lemma LatestIsSemilattice()
    ensures Semilattice(Latest)
  {
    forall a, b
      ensures Latest(a, b) == Latest(b, a) && Latest(a, a) == a
    {
      OlderTotal(a, b);
      OlderTotal(a, a);
    }
    forall a, b, c
      ensures Latest(Latest(a, b), c) == Latest(a, Latest(b, c))
    {
      OlderTotal(a, b);
      OlderTotal(b, c);
      OlderTotal(a, c);
      if Older(a, b) && Older(b, c) {
        OlderTransitive(a, b, c);
      } else if Older(c, b) && Older(b, a) {
        OlderTransitive(c, b, a);
      }
    }
  }

  ghost function All(vs: set<Reaction>): iset<Reaction> {
    iset x | x in vs
  }

  // The join of reactions is one of them: the greatest.
  lemma {:induction false} LatestIsAttained(vs: set<Reaction>, v: Reaction)
    requires IsJoin(Latest, All(vs), v) && vs != {}
    ensures v in vs && forall x :: x in vs ==> x == v || Older(x, v)
  {
    LatestIsSemilattice();
    var m := GreatestExists(vs);
    assert Bounds(Latest, All(vs), m) && m in All(vs);
    assert Below(Latest, v, m) && Below(Latest, m, v);
    assert Latest(v, m) == Latest(m, v);
  }

  lemma {:induction false} GreatestExists(vs: set<Reaction>) returns (m: Reaction)
    requires vs != {}
    ensures m in vs && forall x :: x in vs ==> x == m || Older(x, m)
  {
    m :| m in vs;
    if vs != {m} {
      var n := GreatestExists(vs - {m});
      OlderTotal(m, n);
      if Older(m, n) {
        m := n;
      } else {
        forall x | x in vs && x != m && x != n
          ensures Older(x, m)
        {
          OlderTransitive(x, n, m);
        }
      }
    }
  }

  datatype Receipt = Receipt(delivered: Option<int>, read: Option<int>, group: bool)

  // Scalar min: NULL as soon as one argument is NULL.
  function SqlMin(a: Option<int>, b: Option<int>): Option<int> {
    if a.Some? && b.Some? then (if b.value < a.value then b else a) else None
  }

  function Coalesce<T>(a: Option<T>, b: Option<T>): Option<T> {
    if a.Some? then a else b
  }

  // mergeReceiptTimes
  function Earliest(stored: Receipt, incoming: Receipt): Receipt {
    Receipt(Coalesce(Coalesce(SqlMin(stored.delivered, incoming.delivered), stored.delivered), incoming.delivered),
            Coalesce(Coalesce(SqlMin(stored.read, incoming.read), stored.read), incoming.read),
            stored.group || incoming.group)
  }

  lemma EarliestIsSemilattice()
    ensures Semilattice(Earliest)
  {
  }

  // The guard of the receipt upsert: something in the incoming row improves the stored one.
  predicate Improves(stored: Receipt, incoming: Receipt) {
    || (incoming.delivered.Some? && (stored.delivered.None? || incoming.delivered.value < stored.delivered.value))
    || (incoming.read.Some? && (stored.read.None? || incoming.read.value < stored.read.value))
    || (incoming.group && !stored.group)
  }

  lemma ImprovesIffChanges(stored: Receipt, incoming: Receipt)
    ensures Improves(stored, incoming) <==> Earliest(stored, incoming) != stored
  {
  }

  // What a joined receipt says: the earliest times reported, and whether any report was for a group.
  lemma EarliestIsAttained(vs: iset<Receipt>, v: Receipt)
    requires IsJoin(Earliest, vs, v)
    ensures v.read.Some? <==> exists x :: x in vs && x.read.Some?
    ensures v.delivered.Some? <==> exists x :: x in vs && x.delivered.Some?
    ensures v.group <==> exists x :: x in vs && x.group
    ensures v.read.Some? ==> exists x :: x in vs && x.read == v.read
    ensures v.read.Some? ==> forall x :: x in vs && x.read.Some? ==> v.read.value <= x.read.value
    ensures v.delivered.Some? ==> exists x :: x in vs && x.delivered == v.delivered
    ensures v.delivered.Some? ==> forall x :: x in vs && x.delivered.Some? ==> v.delivered.value <= x.delivered.value
  {
    assert forall x :: x in vs ==> Below(Earliest, x, v);
    var noRead, noDelivered, noGroup := v.(read := None), v.(delivered := None), v.(group := false);
    assert Bounds(Earliest, vs, noRead) ==> Below(Earliest, v, noRead);
    assert Bounds(Earliest, vs, noDelivered) ==> Below(Earliest, v, noDelivered);
    assert Bounds(Earliest, vs, noGroup) ==> Below(Earliest, v, noGroup);
    if v.read.Some? {
      var later := v.(read := Some(v.read.value + 1));
      assert Bounds(Earliest, vs, later) ==> Below(Earliest, v, later);
    }
    if v.delivered.Some? {
      var later := v.(delivered := Some(v.delivered.value + 1));
      assert Bounds(Earliest, vs, later) ==> Below(Earliest, v, later);
    }
  }
}
