// The read side: what a message shows is computed from the tables, chat alias by chat alias, and
// equals what one would compute from every event ever reported on any alias.
module Reading {
  import opened Links
  import opened Merging
  import opened Participants
  import opened Reports
  import opened TextOrder
  import opened Totals
  import opened Wrappers

  // Rows joined to a message: its provider ID as target, any alias of its conversation as chat.
  ghost function Joined<V>(table: Table<V>, chats: set<Jid>, target: string): set<Slot> {
    set s | s in table && s.chat in chats && s.target == target
  }

  // ROW_NUMBER() ... = 1 over (message, participant), ordered by reactionOrder.
  ghost predicate TopRow(table: Table<Reaction>, chats: set<Jid>, target: string, s: Slot) {
    && s in Joined(table, chats, target)
    && forall r :: r in Joined(table, chats, target) && r.who == s.who ==>
       table[r] == table[s] || Older(table[r], table[s])
  }

  // attachReactions groups the top rows by emoji; the count of an emoji is the size of this set.
  ghost function Reactors(table: Table<Reaction>, chats: set<Jid>, target: string, emoji: string): set<Jid> {
    set s | s in table && TopRow(table, chats, target, s) && table[s].emoji == emoji && emoji != "" :: s.who
  }

  ghost predicate About<V>(e: Report<V>, chats: set<Jid>, target: string) {
    e.slot.chat in chats && e.slot.target == target
  }

  // The specification: e is the last word of its person on the message, over all chats and all names.
  ghost predicate LastWord(rows: set<LinkRow>, reports: set<Report<Reaction>>, chats: set<Jid>, target: string,
                           e: Report<Reaction>) {
    && e in reports && About(e, chats, target)
    && forall f :: f in reports && About(f, chats, target) && Rep(rows, f.slot.who) == Rep(rows, e.slot.who)
         ==> f.value == e.value || Older(f.value, e.value)
  }

  ghost function Spoken(rows: set<LinkRow>, reports: set<Report<Reaction>>, chats: set<Jid>, target: string,
                        emoji: string): set<Jid> {
    set e | e in reports && LastWord(rows, reports, chats, target, e) && e.value.emoji == emoji &&
        emoji != "" :: Rep(rows, e.slot.who)
  }

  ghost function Values<V>(rows: set<LinkRow>, reports: set<Report<V>>, s: Slot): set<V> {
    set e | e in reports && Lands(RepOf(rows), e, s) :: e.value
  }

  // A stored reaction is the greatest one reported in its chat by its person.
  lemma ReactionRow(rows: set<LinkRow>, reports: set<Report<Reaction>>, table: Table<Reaction>, s: Slot)
    requires Correct(Latest, RepOf(rows), reports, table)
    ensures s in table <==> exists e :: e in reports && Lands(RepOf(rows), e, s)
    ensures s in table ==> exists e :: e in reports && Lands(RepOf(rows), e, s) && e.value == table[s]
    ensures s in table ==> forall e :: e in reports && Lands(RepOf(rows), e, s) ==>
            e.value == table[s] || Older(e.value, table[s])
  {
    var vs := Values(rows, reports, s);
    assert Group(RepOf(rows), reports, s) == All(vs);
    assert Holds(Latest, All(vs), Lookup(table, s));
    if s in table {
      var x :| x in All(vs);
      LatestIsAttained(vs, table[s]);
    } else {
      assert forall e :: e in reports && Lands(RepOf(rows), e, s) ==> e.value in vs;
    }
  }

  lemma TopRowIsLastWord(rows: set<LinkRow>, reports: set<Report<Reaction>>, table: Table<Reaction>, chats: set<Jid>,
                         target: string, s: Slot)
    requires Correct(Latest, RepOf(rows), reports, table) && TopRow(table, chats, target, s)
    ensures exists e ::
              LastWord(rows, reports, chats, target, e) && Rep(rows, e.slot.who) == s.who && e.value == table[s]
  {
    hide Correct, Rep;
    ReactionRow(rows, reports, table, s);
    var e :| e in reports && Lands(RepOf(rows), e, s) && e.value == table[s];
    forall f | f in reports && About(f, chats, target) && Rep(rows, f.slot.who) == Rep(rows, e.slot.who)
      ensures f.value == e.value || Older(f.value, e.value)
    {
      var r := f.slot.(who := s.who);
      ReactionRow(rows, reports, table, r);
      assert Lands(RepOf(rows), f, r);
      assert r in Joined(table, chats, target);
      if f.value != table[r] && table[r] != table[s] {
        OlderTransitive(f.value, table[r], table[s]);
      }
    }
    assert LastWord(rows, reports, chats, target, e);
  }

  lemma LastWordIsTopRow(rows: set<LinkRow>, reports: set<Report<Reaction>>, table: Table<Reaction>, chats: set<Jid>,
                         target: string, e: Report<Reaction>)
    requires Correct(Latest, RepOf(rows), reports, table) && LastWord(rows, reports, chats, target, e)
    ensures var s := e.slot.(who := Rep(rows, e.slot.who)); TopRow(table, chats, target, s) && table[s] == e.value
  {
    hide Correct, Rep;
    var s := e.slot.(who := Rep(rows, e.slot.who));
    ReactionRow(rows, reports, table, s);
    assert Lands(RepOf(rows), e, s);
    var top :| top in reports && Lands(RepOf(rows), top, s) && top.value == table[s];
    assert top.value == e.value || Older(top.value, e.value);
    OlderTotal(top.value, e.value);
    forall r | r in Joined(table, chats, target) && r.who == s.who
      ensures table[r] == table[s] || Older(table[r], table[s])
    {
      ReactionRow(rows, reports, table, r);
      var f :| f in reports && Lands(RepOf(rows), f, r) && f.value == table[r];
      assert About(f, chats, target);
    }
  }

  // Reactions shown on a message are exactly the last words of its people: each linked person counts
  // once, and a later removal under one alias hides an earlier reaction under another.
  lemma ReactionsRefine(rows: set<LinkRow>, reports: set<Report<Reaction>>, table: Table<Reaction>, chats: set<Jid>,
                        target: string, emoji: string)
    requires Correct(Latest, RepOf(rows), reports, table)
    ensures Reactors(table, chats, target, emoji) == Spoken(rows, reports, chats, target, emoji)
  {
    hide Correct, Rep, LastWord, TopRow;
    forall s | s in table && TopRow(table, chats, target, s)
      ensures exists e ::
                e in reports && LastWord(rows, reports, chats, target, e) && Rep(rows, e.slot.who) == s.who &&
                e.value == table[s]
    {
      TopRowIsLastWord(rows, reports, table, chats, target, s);
      var e :| LastWord(rows, reports, chats, target, e) && Rep(rows, e.slot.who) == s.who && e.value == table[s];
      assert e in reports by { LastWordReported(rows, reports, chats, target, e); }
    }
    forall e | e in reports && LastWord(rows, reports, chats, target, e)
      ensures exists s ::
                s in table && TopRow(table, chats, target, s) && s.who == Rep(rows, e.slot.who) && table[s] == e.value
    {
      LastWordIsTopRow(rows, reports, table, chats, target, e);
      TopRowStored(table, chats, target, e.slot.(who := Rep(rows, e.slot.who)));
    }
  }

  lemma LastWordReported(rows: set<LinkRow>, reports: set<Report<Reaction>>, chats: set<Jid>, target: string,
                         e: Report<Reaction>)
    requires LastWord(rows, reports, chats, target, e)
    ensures e in reports
  {
  }

  lemma TopRowStored(table: Table<Reaction>, chats: set<Jid>, target: string, s: Slot)
    requires TopRow(table, chats, target, s)
    ensures s in table
  {
  }

  // What counts of a person is the latest report on the message, under any alias of the chat and of the person. At one
  // time a removal counts, then the greatest event ID, then the greatest emoji. The person reacts with its emoji and
  // no other, and with none if it is a removal.
  lemma LatestReactionCounts(rows: set<LinkRow>, reports: set<Report<Reaction>>, table: Table<Reaction>,
                             chats: set<Jid>, target: string, e: Report<Reaction>, emoji: string)
    requires Correct(Latest, RepOf(rows), reports, table)
    requires e in reports && e.slot.chat in chats && e.slot.target == target
    requires forall f ::
               f in reports && f.slot.chat in chats && f.slot.target == target &&
               Rep(rows, f.slot.who) == Rep(rows, e.slot.who) && f.value != e.value ==>
                 f.value.at < e.value.at || (f.value.at == e.value.at && (
                   || (f.value.emoji != "" && e.value.emoji == "")
                   || ((f.value.emoji == "" <==> e.value.emoji == "") && (
                         || Less(f.value.event, e.value.event)
                         || (f.value.event == e.value.event && Less(f.value.emoji, e.value.emoji))))))
    ensures Rep(rows, e.slot.who) in Reactors(table, chats, target, emoji) <==> emoji == e.value.emoji && emoji != ""
  {
    hide Correct, Rep, Less;
    assert LastWord(rows, reports, chats, target, e);
    LastWordIsTopRow(rows, reports, table, chats, target, e);
    var s := e.slot.(who := Rep(rows, e.slot.who));
    forall r | r in table && TopRow(table, chats, target, r) && r.who == s.who
      ensures table[r] == e.value
    {
      OlderTotal(table[r], table[s]);
    }
  }

  datatype Mark = Delivered | Read

  function At(mark: Mark, r: Receipt): Option<int> {
    if mark == Read then r.read else r.delivered
  }

  // The CASE conditions of attachDelivery: who has read a message has received it.
  predicate Counts(mark: Mark, r: Receipt) {
    r.read.Some? || (mark == Delivered && r.delivered.Some?)
  }

  // COUNT(DISTINCT participant_id) counts the people in this set.
  ghost function Marked(mark: Mark, table: Table<Receipt>, chats: set<Jid>, target: string): set<Jid> {
    set s | s in Joined(table, chats, target) && Counts(mark, table[s]) :: s.who
  }

  ghost function MarkedBy(mark: Mark, rows: set<LinkRow>, reports: set<Report<Receipt>>, chats: set<Jid>,
                          target: string): set<Jid> {
    set e | e in reports && About(e, chats, target) && Counts(mark, e.value) :: Rep(rows, e.slot.who)
  }

  // max(is_group)
  ghost predicate AnyGroup(table: Table<Receipt>, chats: set<Jid>, target: string) {
    exists s :: s in Joined(table, chats, target) && table[s].group
  }

  ghost predicate GroupReported(reports: set<Report<Receipt>>, chats: set<Jid>, target: string) {
    exists e :: e in reports && About(e, chats, target) && e.value.group
  }

  // ListMessageReceipts' min() over the rows of one participant.
  ghost predicate First(mark: Mark, table: Table<Receipt>, chats: set<Jid>, target: string, who: Jid, at: int) {
    && (exists s :: s in Joined(table, chats, target) && s.who == who && At(mark, table[s]) == Some(at))
    && forall s :: s in Joined(table, chats, target) && s.who == who && At(mark, table[s]).Some? ==>
       at <= At(mark, table[s]).value
  }

  ghost predicate FirstReported(mark: Mark, rows: set<LinkRow>, reports: set<Report<Receipt>>, chats: set<Jid>,
                                target: string,
                                who: Jid, at: int) {
    && (exists e ::
          e in reports && About(e, chats, target) && Rep(rows, e.slot.who) == who && At(mark, e.value) == Some(at))
    && forall e ::
         e in reports && About(e, chats, target) && Rep(rows, e.slot.who) == who && At(mark, e.value).Some? ==>
           at <= At(mark, e.value).value
  }

  // A stored receipt holds the earliest mark reported in its chat by its person, if any was.
  lemma ReceiptRow(mark: Mark, rows: set<LinkRow>, reports: set<Report<Receipt>>, table: Table<Receipt>, s: Slot)
    requires Correct(Earliest, RepOf(rows), reports, table)
    ensures s in table <==> exists e :: e in reports && Lands(RepOf(rows), e, s)
    ensures s in table ==> (table[s].group <==> exists e :: e in reports && Lands(RepOf(rows), e, s) && e.value.group)
    ensures forall e :: e in reports && Lands(RepOf(rows), e, s) && At(mark, e.value).Some? ==>
              At(mark, table[s]).Some? && At(mark, table[s]).value <= At(mark, e.value).value
    ensures s in table && At(mark, table[s]).Some? ==>
            exists e :: e in reports && Lands(RepOf(rows), e, s) && At(mark, e.value) == At(mark, table[s])
  {
    var vs := Group(RepOf(rows), reports, s);
    assert Holds(Earliest, vs, Lookup(table, s));
    assert forall e :: e in reports && Lands(RepOf(rows), e, s) ==> e.value in vs;
    if s in table {
      EarliestIsAttained(vs, table[s]);
    }
  }

  lemma RowIsReported(mark: Mark, rows: set<LinkRow>, reports: set<Report<Receipt>>, table: Table<Receipt>,
                      chats: set<Jid>,
                      target: string, s: Slot)
    returns (e: Report<Receipt>)
    requires Correct(Earliest, RepOf(rows), reports, table) && s in Joined(table, chats, target)
    requires At(mark, table[s]).Some?
    ensures e in reports && About(e, chats, target) && Rep(rows, e.slot.who) == s.who
    ensures At(mark, e.value) == At(mark, table[s])
  {
    hide Correct, Rep;
    ReceiptRow(mark, rows, reports, table, s);
    e :| e in reports && Lands(RepOf(rows), e, s) && At(mark, e.value) == At(mark, table[s]);
  }

  lemma ReportHasRow(mark: Mark, rows: set<LinkRow>, reports: set<Report<Receipt>>, table: Table<Receipt>,
                     chats: set<Jid>,
                     target: string, e: Report<Receipt>)
    returns (s: Slot)
    requires Correct(Earliest, RepOf(rows), reports, table) && e in reports && About(e, chats, target)
    requires At(mark, e.value).Some?
    ensures s in Joined(table, chats, target) && s.who == Rep(rows, e.slot.who)
    ensures At(mark, table[s]).Some? && At(mark, table[s]).value <= At(mark, e.value).value
  {
    hide Correct, Rep;
    s := e.slot.(who := Rep(rows, e.slot.who));
    assert Lands(RepOf(rows), e, s);
    ReceiptRow(mark, rows, reports, table, s);
  }

  lemma MarksRefine(mark: Mark, rows: set<LinkRow>, reports: set<Report<Receipt>>, table: Table<Receipt>,
                     chats: set<Jid>, target: string)
    requires Correct(Earliest, RepOf(rows), reports, table)
    ensures Marked(mark, table, chats, target) == MarkedBy(mark, rows, reports, chats, target)
  {
    hide Correct, Rep;
    forall s | s in Joined(table, chats, target) && Counts(mark, table[s])
      ensures s.who in MarkedBy(mark, rows, reports, chats, target)
    {
      var which := if table[s].read.Some? then Read else Delivered;
      var e := RowIsReported(which, rows, reports, table, chats, target, s);
      assert Counts(mark, e.value);
    }
    forall e | e in reports && About(e, chats, target) && Counts(mark, e.value)
      ensures Rep(rows, e.slot.who) in Marked(mark, table, chats, target)
    {
      var which := if e.value.read.Some? then Read else Delivered;
      var s := ReportHasRow(which, rows, reports, table, chats, target, e);
      assert Counts(mark, table[s]);
    }
  }

  // Delivery counts: a linked person counts once, whichever alias the receipt came under. Readers are those with a read
  // mark, and receivers those with either mark.
  lemma CountsRefine(rows: set<LinkRow>, reports: set<Report<Receipt>>, table: Table<Receipt>, chats: set<Jid>,
                     target: string)
    requires Correct(Earliest, RepOf(rows), reports, table)
    ensures Marked(Read, table, chats, target) ==
            set e | e in reports && e.slot.chat in chats && e.slot.target == target && e.value.read.Some? ::
              Rep(rows, e.slot.who)
    ensures Marked(Delivered, table, chats, target) ==
            set e | e in reports && e.slot.chat in chats && e.slot.target == target &&
                    (e.value.delivered.Some? || e.value.read.Some?) :: Rep(rows, e.slot.who)
  {
    hide Correct, Rep, Marked;
    MarksRefine(Read, rows, reports, table, chats, target);
    MarksRefine(Delivered, rows, reports, table, chats, target);
  }

  lemma GroupRefines(rows: set<LinkRow>, reports: set<Report<Receipt>>, table: Table<Receipt>, chats: set<Jid>,
                     target: string)
    requires Correct(Earliest, RepOf(rows), reports, table)
    ensures AnyGroup(table, chats, target) <==> GroupReported(reports, chats, target)
  {
    hide Correct, Rep;
    if AnyGroup(table, chats, target) {
      var s :| s in Joined(table, chats, target) && table[s].group;
      ReceiptRow(Read, rows, reports, table, s);
      var e :| e in reports && Lands(RepOf(rows), e, s) && e.value.group;
      assert About(e, chats, target);
    }
    if GroupReported(reports, chats, target) {
      var e :| e in reports && About(e, chats, target) && e.value.group;
      var s := e.slot.(who := Rep(rows, e.slot.who));
      assert Lands(RepOf(rows), e, s);
      ReceiptRow(Read, rows, reports, table, s);
      assert s in Joined(table, chats, target);
    }
  }

  // Everyone who read a message counts as having received it.
  lemma ReadersReceived(rows: set<LinkRow>, reports: set<Report<Receipt>>, table: Table<Receipt>, chats: set<Jid>,
                        target: string)
    requires Correct(Earliest, RepOf(rows), reports, table)
    ensures forall e :: e in reports && e.slot.chat in chats && e.slot.target == target && e.value.read.Some? ==>
              Rep(rows, e.slot.who) in Marked(Read, table, chats, target) * Marked(Delivered, table, chats, target)
    ensures |Marked(Read, table, chats, target)| <= |Marked(Delivered, table, chats, target)|
  {
    CountsRefine(rows, reports, table, chats, target);
    assert Marked(Read, table, chats, target) <= Marked(Delivered, table, chats, target);
    SubsetSize(Marked(Read, table, chats, target), Marked(Delivered, table, chats, target));
  }

  datatype Delivery = Delivery(group: bool, delivered: nat, read: nat, state: string)

  // attachDelivery for one message: only outbound ones have a summary. It says what was reported about the
  // message under any alias, whatever rows and links it went through.
  method AttachDelivery(outbound: bool, groupChat: bool, table: Table<Receipt>, chats: set<Jid>, target: string,
                        ghost rows: set<LinkRow>, ghost reports: set<Report<Receipt>>)
    returns (d: Option<Delivery>)
    requires Correct(Earliest, RepOf(rows), reports, table)
    ensures d.Some? <==> outbound
    ensures d.Some? ==> (d.value.group <==> groupChat || exists e ::
                           e in reports && e.slot.chat in chats && e.slot.target == target && e.value.group)
    ensures d.Some? ==>
              d.value.delivered == |set e | e in reports && e.slot.chat in chats && e.slot.target == target &&
                                            (e.value.delivered.Some? || e.value.read.Some?) :: Rep(rows, e.slot.who)|
    ensures d.Some? ==>
              d.value.read == |set e | e in reports && e.slot.chat in chats && e.slot.target == target &&
                                       e.value.read.Some? :: Rep(rows, e.slot.who)| <= d.value.delivered
    ensures d.Some? ==> (d.value.state == "unknown" <==> d.value.delivered == 0)
    ensures d.Some? ==> (d.value.state in {"read", "partial_read"} <==> d.value.read > 0)
    ensures d.Some? ==> (d.value.state in {"partial_read", "partial_delivered"} <==>
                         d.value.group && d.value.delivered > 0)
    ensures d.Some? ==> d.value.state in {"unknown", "delivered", "read", "partial_delivered", "partial_read"}
    ensures d.Some? && d.value.state in {"read", "partial_read"} ==>
              exists e :: e in reports && e.slot.chat in chats && e.slot.target == target && e.value.read.Some?
  {
    hide Correct, RepOf, Rep, Marked;
    if !outbound {
      return None;
    }
    var anyGroup, received, readers := Summed(table, chats, target);
    CountsRefine(rows, reports, table, chats, target);
    GroupRefines(rows, reports, table, chats, target);
    ReadersReceived(rows, reports, table, chats, target);
    var group := groupChat || anyGroup;
    var state := "unknown";
    if |readers| > 0 {
      state := "read";
    } else if |received| > 0 {
      state := "delivered";
    }
    if group && state != "unknown" {
      assert "partial_" + "read" == "partial_read" && "partial_" + "delivered" == "partial_delivered";
      state := "partial_" + state;
    }
    assert "partial_read"[0] != "read"[0] && "partial_delivered"[8] != "partial_read"[8];
    d := Some(Delivery.Delivery(group, |received|, |readers|, state));
  }

  // The aggregates of one group of the query.
  method Summed(table: Table<Receipt>, chats: set<Jid>, target: string) returns (group: bool, received: set<Jid>,
      readers: set<Jid>)
    ensures group <==> AnyGroup(table, chats, target)
    ensures received == Marked(Delivered, table, chats, target) && readers == Marked(Read, table, chats, target)
  {
    group, received, readers := false, {}, {};
    var rest := table.Keys;
    while rest != {}
      invariant rest <= table.Keys
      invariant group <==> exists s :: s in Joined(table, chats, target) && s !in rest && table[s].group
      invariant forall w :: w in received <==>
                  exists s ::
                    s in Joined(table, chats, target) && s !in rest && Counts(Delivered, table[s]) && s.who == w
      invariant forall w :: w in readers <==>
                  exists s :: s in Joined(table, chats, target) && s !in rest && Counts(Read, table[s]) && s.who == w
      decreases rest
    {
      var s :| s in rest;
      rest := rest - {s};
      if s.chat in chats && s.target == target {
        group := group || table[s].group;
        if Counts(Delivered, table[s]) {
          received := received + {s.who};
        }
        if Counts(Read, table[s]) {
          readers := readers + {s.who};
        }
      }
    }
  }

  // A receipt list names everyone who reported something on the message under any alias, once.
  lemma ListedRefine(rows: set<LinkRow>, reports: set<Report<Receipt>>, table: Table<Receipt>, chats: set<Jid>,
                     target: string, who: Jid)
    requires Correct(Earliest, RepOf(rows), reports, table)
    ensures (exists s :: s in Joined(table, chats, target) && s.who == who) <==>
            exists e :: e in reports && About(e, chats, target) && Rep(rows, e.slot.who) == who
  {
    hide Correct, Rep;
    if s :| s in Joined(table, chats, target) && s.who == who {
      ReceiptRow(Read, rows, reports, table, s);
      var e :| e in reports && Lands(RepOf(rows), e, s);
      assert About(e, chats, target);
    }
    if e :| e in reports && About(e, chats, target) && Rep(rows, e.slot.who) == who {
      var s := e.slot.(who := who);
      assert Lands(RepOf(rows), e, s);
      ReceiptRow(Read, rows, reports, table, s);
      assert s in Joined(table, chats, target);
    }
  }

  // Receipt lists: the time shown for a person is the earliest ever reported under any alias.
  lemma TimesRefine(mark: Mark, rows: set<LinkRow>, reports: set<Report<Receipt>>, table: Table<Receipt>,
                    chats: set<Jid>,
                    target: string,
                    who: Jid, at: int)
    requires Correct(Earliest, RepOf(rows), reports, table)
    ensures First(mark, table, chats, target, who, at) <==> FirstReported(mark, rows, reports, chats, target, who, at)
  {
    hide Correct, Rep;
    if First(mark, table, chats, target, who, at) {
      var s :| s in Joined(table, chats, target) && s.who == who && At(mark, table[s]) == Some(at);
      var e := RowIsReported(mark, rows, reports, table, chats, target, s);
      forall f | f in reports && About(f, chats, target) && Rep(rows, f.slot.who) == who && At(mark, f.value).Some?
        ensures at <= At(mark, f.value).value
      {
        var r := ReportHasRow(mark, rows, reports, table, chats, target, f);
      }
    }
    if FirstReported(mark, rows, reports, chats, target, who, at) {
      var e :| e in reports && About(e, chats, target) && Rep(rows, e.slot.who) == who && At(mark, e.value) == Some(at);
      var s := ReportHasRow(mark, rows, reports, table, chats, target, e);
      forall r | r in Joined(table, chats, target) && r.who == who && At(mark, table[r]).Some?
        ensures at <= At(mark, table[r]).value
      {
        var f := RowIsReported(mark, rows, reports, table, chats, target, r);
      }
      var f := RowIsReported(mark, rows, reports, table, chats, target, s);
    }
  }

  datatype ReceiptItem = ReceiptItem(who: Jid, delivered: Option<int>, read: Option<int>)

  ghost predicate Reporter(rows: set<LinkRow>, reports: set<Report<Receipt>>, chats: set<Jid>, target: string,
                           who: Jid) {
    exists e :: e in reports && About(e, chats, target) && Rep(rows, e.slot.who) == who
  }

  // The time of a list item is the first one reported, if there is any.
  ghost predicate ReportedFirst(mark: Mark, rows: set<LinkRow>, reports: set<Report<Receipt>>, chats: set<Jid>,
                                target: string, who: Jid, at: Option<int>) {
    match at
    case Some(time) => FirstReported(mark, rows, reports, chats, target, who, time)
    case None => forall e :: e in reports && About(e, chats, target) && Rep(rows, e.slot.who) == who ==>
                   At(mark, e.value).None?
  }

  // A page of a list: the first people after a name, in the order of names.
  ghost predicate PageAfter(after: Jid, limit: nat, all: seq<Jid>, items: seq<ReceiptItem>) {
    && Sorted(all) && (forall w :: w in all ==> Less(after, w))
    && |items| == (if |all| < limit then |all| else limit) && forall k :: 0 <= k < |items| ==> items[k].who == all[k]
  }

  // ListMessageReceipts: everyone with a report on an outbound message counts, in order, with the first times
  // reported under any alias; other messages have no receipts.
  method ListMessageReceipts(outbound: bool, table: Table<Receipt>, chats: set<Jid>, target: string, after: Jid,
                             limit: int, ghost rows: set<LinkRow>, ghost reports: set<Report<Receipt>>)
    returns (r: Result<seq<ReceiptItem>>, ghost all: seq<Jid>)
    requires Correct(Earliest, RepOf(rows), reports, table)
    ensures r.Ok? <==> 1 <= limit <= 201
    ensures r.Ok? ==> PageAfter(after, limit, all, r.value)
    ensures r.Ok? ==>
              forall w :: w in all <==> outbound && Less(after, w) && Reporter(rows, reports, chats, target, w)
    ensures r.Ok? ==>
              forall item :: item in r.value ==>
                && ReportedFirst(Delivered, rows, reports, chats, target, item.who, item.delivered)
                && ReportedFirst(Read, rows, reports, chats, target, item.who, item.read)
  {
    hide Correct, Rep, Less, ReportedFirst;
    all := [];
    if limit < 1 || limit > 201 {
      return Err(Invalid), all;
    }
    var people := [];
    if outbound {
      people := People(table, chats, target, after);
    }
    var ordered := Sort(people);
    all := ordered;
    forall w | w in people
      ensures Reporter(rows, reports, chats, target, w)
    {
      ListedRefine(rows, reports, table, chats, target, w);
    }
    forall w | Reporter(rows, reports, chats, target, w) && outbound && Less(after, w)
      ensures w in people
    {
      ListedRefine(rows, reports, table, chats, target, w);
    }
    var items: seq<ReceiptItem> := [];
    while |items| < |ordered| && |items| < limit
      invariant |items| <= |ordered| && |items| <= limit
      invariant forall k :: 0 <= k < |items| ==> items[k].who == ordered[k]
      invariant forall item :: item in items ==>
                  && ReportedFirst(Delivered, rows, reports, chats, target, item.who, item.delivered)
                  && ReportedFirst(Read, rows, reports, chats, target, item.who, item.read)
    {
      var who := ordered[|items|];
      var delivered := Minimum(Delivered, table, chats, target, who, rows, reports);
      var read := Minimum(Read, table, chats, target, who, rows, reports);
      items := items + [ReceiptItem(who, delivered, read)];
    }
    r := Ok(items);
  }

  // WHERE r.participant_id > ? GROUP BY r.participant_id
  method People(table: Table<Receipt>, chats: set<Jid>, target: string, after: Jid) returns (people: seq<Jid>)
    ensures NoDuplicates(people)
    ensures forall w :: w in people <==> Less(after, w) && exists s :: s in Joined(table, chats, target) && s.who == w
  {
    hide Less;
    people := [];
    var rest := table.Keys;
    while rest != {}
      invariant rest <= table.Keys && NoDuplicates(people)
      invariant forall w :: w in people <==>
                  Less(after, w) && exists s :: s in Joined(table, chats, target) && s !in rest && s.who == w
      decreases rest
    {
      var s :| s in rest;
      rest := rest - {s};
      if s.chat in chats && s.target == target && Less(after, s.who) && s.who !in people {
        people := people + [s.who];
      }
    }
  }

  // min() of a column over the rows of one participant.
  method Minimum(mark: Mark, table: Table<Receipt>, chats: set<Jid>, target: string, who: Jid,
                 ghost rows: set<LinkRow>, ghost reports: set<Report<Receipt>>) returns (at: Option<int>)
    requires Correct(Earliest, RepOf(rows), reports, table)
    ensures ReportedFirst(mark, rows, reports, chats, target, who, at)
  {
    hide Correct, Rep;
    at := None;
    var rest := table.Keys;
    while rest != {}
      invariant rest <= table.Keys
      invariant forall s ::
                  s in Joined(table, chats, target) && s !in rest && s.who == who && At(mark, table[s]).Some? ==>
                    at.Some? && at.value <= At(mark, table[s]).value
      invariant at.Some? ==> exists s :: s in Joined(table, chats, target) && s.who == who && At(mark, table[s]) == at
      decreases rest
    {
      var s :| s in rest;
      rest := rest - {s};
      if s.chat in chats && s.target == target && s.who == who && At(mark, table[s]).Some? {
        if at.None? || At(mark, table[s]).value < at.value {
          at := At(mark, table[s]);
        }
      }
    }
    if at.Some? {
      TimesRefine(mark, rows, reports, table, chats, target, who, at.value);
    }
    forall e | e in reports && About(e, chats, target) && Rep(rows, e.slot.who) == who && at.None?
      ensures At(mark, e.value).None?
    {
      if At(mark, e.value).Some? {
        var s := ReportHasRow(mark, rows, reports, table, chats, target, e);
      }
    }
  }
}
