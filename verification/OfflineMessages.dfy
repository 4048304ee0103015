/** The store of messages for users who are not there: the count check and the insertion of a
    sender, and the statements of a delivery at login, are steps that may interleave. */
module OfflineMessages {

  const LIMIT: nat := 50

  datatype Row = Row(sender: string, recipient: string, text: string, sentAt: int)

  /** A fetched row with its id. */
  datatype Item = Item(id: nat, row: Row)

  /** A delivery: the rows still to be sent, in order, and the sent rows still to be deleted. */
  datatype Delivery = Delivery(login: string, queue: seq<Item>, done: seq<Item>)

  /** A message written to the socket of a user who has logged in. */
  datatype HandOver = HandOver(delivery: nat, login: string, item: Item)

  /** Ids are assigned in order and never used again, to rows and to deliveries alike. */
  datatype State = State(
    rows: map<nat, Row>,
    nextId: nat,
    senders: map<nat, string>,
    deliveries: map<nat, Delivery>,
    begun: nat,
    log: seq<HandOver>)

  const Empty := State(map[], 0, map[], map[], 0, [])

  datatype Step =
    | CheckCount(sender: nat, recipient: string)
    | Insert(sender: nat, login: string, text: string, sentAt: int)
    | Begin(login: string, order: seq<Item>)
    | SendOne(delivery: nat)
    | DeleteOne(delivery: nat)
    | Commit(delivery: nat)

  function PendingFor(rows: map<nat, Row>, login: string): set<nat> {
    set id | id in rows && rows[id].recipient == login
  }

  predicate Ordered(items: seq<Item>) {
    forall i, j | 0 <= i < j < |items| :: items[i].row.sentAt <= items[j].row.sentAt
  }

  predicate Distinct(items: seq<Item>) {
    forall i, j | 0 <= i < j < |items| :: items[i].id != items[j].id
  }

  /** A result of `SELECT ... WHERE recipient_login = ? ORDER BY sent_at ASC`. */
  predicate Selects(rows: map<nat, Row>, login: string, order: seq<Item>) {
    && Ordered(order) && Distinct(order)
    && (forall i | 0 <= i < |order| :: order[i].id in PendingFor(rows, login) && order[i].row == rows[order[i].id])
    && (forall id | id in PendingFor(rows, login) :: exists i :: 0 <= i < |order| && order[i].id == id)
  }

  /** A step that is not possible changes nothing. */
  function Next(st: State, step: Step): State {
    match step
    case CheckCount(sender, recipient) =>
      if sender !in st.senders && |PendingFor(st.rows, recipient)| < LIMIT
      then st.(senders := st.senders[sender := recipient]) else st
    case Insert(sender, login, text, sentAt) =>
      if sender in st.senders
      then st.(rows := st.rows[st.nextId := Row(login, st.senders[sender], text, sentAt)], nextId := st.nextId + 1,
               senders := st.senders - {sender})
      else st
    case Begin(login, order) =>
      if Selects(st.rows, login, order)
      then st.(deliveries := st.deliveries[st.begun := Delivery(login, order, [])], begun := st.begun + 1) else st
    case SendOne(d) =>
      if d in st.deliveries && st.deliveries[d].queue != [] then
        var del := st.deliveries[d];
        var item := del.queue[0];
        st.(deliveries := st.deliveries[d := Delivery(del.login, del.queue[1..], del.done + [item])],
            log := st.log + [HandOver(d, del.login, item)])
      else st
    case DeleteOne(d) =>
      if d in st.deliveries && st.deliveries[d].queue == [] && st.deliveries[d].done != [] then
        var del := st.deliveries[d];
        st.(rows := st.rows - {del.done[0].id}, deliveries := st.deliveries[d := del.(done := del.done[1..])])
      else st
    case Commit(d) =>
      if d in st.deliveries && st.deliveries[d].queue == [] && st.deliveries[d].done == []
      then st.(deliveries := st.deliveries - {d}) else st
  }

  function Run(st: State, steps: seq<Step>): State {
    if steps == [] then st else Next(Run(st, steps[..|steps| - 1]), steps[|steps| - 1])
  }

  // ---- Exactly once ----

  function Times(log: seq<HandOver>, id: nat): nat {
    if log == [] then 0
    else Times(log[..|log| - 1], id) + if log[|log| - 1].item.id == id then 1 else 0
  }

  lemma TimesMore(log: seq<HandOver>, h: HandOver, id: nat)
    ensures Times(log + [h], id) == Times(log, id) + if h.item.id == id then 1 else 0
  {
    assert (log + [h])[..|log|] == log;
  }

  function Held(d: Delivery): seq<Item> {
    d.done + d.queue
  }

  predicate Has(items: seq<Item>, id: nat) {
    exists i :: 0 <= i < |items| && items[i].id == id
  }

  /** A delivery that begins takes no row that another delivery has in hand. */
  ghost predicate Exclusive(st: State, step: Step) {
    step.Begin? ==> forall d, id | d in st.deliveries && Has(step.order, id) :: !Has(Held(st.deliveries[d]), id)
  }

  ghost predicate ExclusiveThroughout(steps: seq<Step>) {
    forall i | 0 <= i < |steps| :: Exclusive(Run(Empty, steps[..i]), steps[i])
  }

  predicate Given(st: State, id: nat) {
    exists d :: d in st.deliveries && Has(st.deliveries[d].done, id)
  }

  /** What a delivery holds: distinct rows of its own recipient, each still in the table. */
  ghost predicate DeliveryOk(rows: map<nat, Row>, del: Delivery) {
    && Distinct(Held(del))
    && forall i | 0 <= i < |Held(del)| ::
         Held(del)[i].id in rows && rows[Held(del)[i].id] == Held(del)[i].row && Held(del)[i].row.recipient == del.login
  }

  ghost predicate Apart(st: State) {
    forall d, e, id | d in st.deliveries && e in st.deliveries && d != e && Has(Held(st.deliveries[d]), id) ::
      !Has(Held(st.deliveries[e]), id)
  }

  /** How often a message has been handed over: not at all while it waits, and once after that. */
  ghost predicate CountsOk(st: State) {
    && (forall id | id in st.rows :: Times(st.log, id) == if Given(st, id) then 1 else 0)
    && (forall id: nat | id < st.nextId && id !in st.rows :: Times(st.log, id) == 1)
    && (forall id: nat | id >= st.nextId :: id !in st.rows && Times(st.log, id) == 0)
  }

  ghost predicate Inv(st: State) {
    && (forall d | d in st.deliveries :: d < st.begun && DeliveryOk(st.rows, st.deliveries[d]))
    && Apart(st)
    && CountsOk(st)
  }

  lemma SendKeepsApart(st: State, d: nat)
    requires Inv(st) && d in st.deliveries && st.deliveries[d].queue != []
    ensures Apart(Next(st, SendOne(d)))
    ensures forall e | e in st.deliveries ::
              e < st.begun && DeliveryOk(st.rows, Next(st, SendOne(d)).deliveries[e])
  {
    assert Held(Next(st, SendOne(d)).deliveries[d]) == Held(st.deliveries[d]);
  }

  lemma SendOneKeeps(st: State, d: nat)
    requires Inv(st) && d in st.deliveries && st.deliveries[d].queue != []
    ensures Inv(Next(st, SendOne(d)))
  {
    var st' := Next(st, SendOne(d));
    var del, del' := st.deliveries[d], st'.deliveries[d];
    var x := del.queue[0];
    SendKeepsApart(st, d);
    assert del'.done[|del.done|] == x;
    forall id ensures Has(del'.done, id) <==> Has(del.done, id) || id == x.id {
      if Has(del.done, id) {
        var i :| 0 <= i < |del.done| && del.done[i].id == id;
        assert del'.done[i].id == id;
      }
    }
    assert Held(del)[|del.done|] == x;
    assert Has(Held(del), x.id);
    forall id ensures Given(st', id) <==> Given(st, id) || id == x.id {
      GivenAfter(st, st', d, id);
      if id == x.id { assert Has(st'.deliveries[d].done, id); }
    }
    NotGivenYet(st, d, |del.done|);
    forall id: nat ensures Times(st'.log, id) == Times(st.log, id) + if id == x.id then 1 else 0 {
      TimesMore(st.log, HandOver(d, del.login, x), id);
    }
  }

  lemma GivenAfter(st: State, st': State, d: nat, id: nat)
    requires d in st.deliveries && d in st'.deliveries && st'.deliveries.Keys == st.deliveries.Keys
    requires forall e | e in st.deliveries && e != d :: st'.deliveries[e] == st.deliveries[e]
    ensures Given(st, id) && !Has(st.deliveries[d].done, id) ==> Given(st', id)
    ensures Has(st'.deliveries[d].done, id) ==> Given(st', id)
    ensures Given(st', id) && !Has(st'.deliveries[d].done, id) ==> Given(st, id)
  {
    if Given(st, id) && !Has(st.deliveries[d].done, id) {
      var e :| e in st.deliveries && Has(st.deliveries[e].done, id);
      assert Has(st'.deliveries[e].done, id);
    }
    if Given(st', id) && !Has(st'.deliveries[d].done, id) {
      var e :| e in st'.deliveries && Has(st'.deliveries[e].done, id);
      assert Has(st.deliveries[e].done, id);
    }
  }

  lemma DoneIsHeld(del: Delivery, id: nat)
    ensures Has(del.done, id) || Has(del.queue, id) <==> Has(Held(del), id)
  {
    if Has(del.done, id) {
      var i :| 0 <= i < |del.done| && del.done[i].id == id;
      assert Held(del)[i].id == id;
    }
    if Has(del.queue, id) {
      var i :| 0 <= i < |del.queue| && del.queue[i].id == id;
      assert Held(del)[|del.done| + i].id == id;
    }
    if Has(Held(del), id) {
      var i :| 0 <= i < |Held(del)| && Held(del)[i].id == id;
      assert i < |del.done| ==> del.done[i].id == id;
      assert i >= |del.done| ==> del.queue[i - |del.done|].id == id;
    }
  }

  /** What is still in a queue was not handed over by any delivery. */
  lemma NotGivenYet(st: State, d: nat, k: nat)
    requires Inv(st) && d in st.deliveries
    requires |st.deliveries[d].done| <= k < |Held(st.deliveries[d])|
    ensures !Given(st, Held(st.deliveries[d])[k].id)
  {
    var id := Held(st.deliveries[d])[k].id;
    assert Has(Held(st.deliveries[d]), id);
    forall i | 0 <= i < |st.deliveries[d].done| ensures st.deliveries[d].done[i].id != id {
      assert Held(st.deliveries[d])[i] == st.deliveries[d].done[i];
    }
    forall e | e in st.deliveries ensures !Has(st.deliveries[e].done, id) {
      DoneIsHeld(st.deliveries[e], id);
      assert e != d ==> !Has(Held(st.deliveries[e]), id);
    }
  }

  /** The deleted row is not one that another delivery still holds. */
  lemma DeletedIsOwn(st: State, d: nat, e: nat)
    requires Apart(st) && d in st.deliveries && e in st.deliveries && e != d && DeliveryOk(st.rows, st.deliveries[e])
    requires Held(st.deliveries[d]) != []
    ensures DeliveryOk(st.rows - {Held(st.deliveries[d])[0].id}, st.deliveries[e])
  {
    var x, held := Held(st.deliveries[d])[0], Held(st.deliveries[e]);
    assert Has(Held(st.deliveries[d]), x.id);
    forall i | 0 <= i < |held| ensures held[i].id != x.id {
      assert Has(held, held[i].id);
    }
  }

  lemma RestOk(rows: map<nat, Row>, del: Delivery)
    requires DeliveryOk(rows, del) && del.queue == [] && del.done != []
    ensures DeliveryOk(rows - {del.done[0].id}, del.(done := del.done[1..]))
  {
    var held, rest := Held(del), Held(del.(done := del.done[1..]));
    assert held == del.done && rest == del.done[1..];
    forall i | 0 <= i < |rest| ensures rest[i] == held[i + 1] {}
  }

  lemma DeleteKeepsApart(st: State, d: nat)
    requires Inv(st) && d in st.deliveries && st.deliveries[d].queue == [] && st.deliveries[d].done != []
    ensures Apart(Next(st, DeleteOne(d)))
  {
    var st' := Next(st, DeleteOne(d));
    var held, rest := Held(st.deliveries[d]), Held(st'.deliveries[d]);
    assert held == st.deliveries[d].done && rest == held[1..];
    forall id ensures Has(rest, id) ==> Has(held, id) {
      HasTail(held, id);
    }
  }

  lemma DeleteKeepsCounts(st: State, d: nat)
    requires Inv(st) && d in st.deliveries && st.deliveries[d].queue == [] && st.deliveries[d].done != []
    ensures CountsOk(Next(st, DeleteOne(d)))
  {
    var st' := Next(st, DeleteOne(d));
    var del := st.deliveries[d];
    var x := del.done[0];
    assert Held(del) == del.done;
    assert Has(del.done, x.id) && Given(st, x.id);
    forall id | id in st'.rows ensures Given(st', id) <==> Given(st, id) {
      HasTail(del.done, id);
      GivenAfter(st, st', d, id);
    }
  }

  lemma DeleteOneKeeps(st: State, d: nat)
    requires Inv(st) && d in st.deliveries && st.deliveries[d].queue == [] && st.deliveries[d].done != []
    ensures Inv(Next(st, DeleteOne(d)))
  {
    var st' := Next(st, DeleteOne(d));
    assert Held(st.deliveries[d]) == st.deliveries[d].done;
    forall e | e in st'.deliveries ensures e < st'.begun && DeliveryOk(st'.rows, st'.deliveries[e]) {
      if e != d { DeletedIsOwn(st, d, e); } else { RestOk(st.rows, st.deliveries[d]); }
    }
    DeleteKeepsApart(st, d);
    DeleteKeepsCounts(st, d);
  }

  lemma HasTail(items: seq<Item>, id: nat)
    requires items != [] && Distinct(items)
    ensures Has(items[1..], id) <==> Has(items, id) && id != items[0].id
  {
    if Has(items[1..], id) {
      var i :| 0 <= i < |items[1..]| && items[1..][i].id == id;
      assert items[i + 1].id == id;
    }
    if Has(items, id) && id != items[0].id {
      var i :| 0 <= i < |items| && items[i].id == id;
      assert items[1..][i - 1].id == id;
    }
  }

  lemma SelectedOk(rows: map<nat, Row>, login: string, order: seq<Item>)
    requires Selects(rows, login, order)
    ensures DeliveryOk(rows, Delivery(login, order, []))
  {
    assert Held(Delivery(login, order, [])) == order;
  }

  lemma BeginKeepsEach(st: State, login: string, order: seq<Item>)
    requires Inv(st) && Selects(st.rows, login, order)
    ensures var st' := Next(st, Begin(login, order));
            forall d | d in st'.deliveries :: d < st'.begun && DeliveryOk(st'.rows, st'.deliveries[d])
  {
    SelectedOk(st.rows, login, order);
  }

  lemma BeginKeepsApart(st: State, login: string, order: seq<Item>)
    requires Inv(st) && Selects(st.rows, login, order) && Exclusive(st, Begin(login, order))
    ensures Apart(Next(st, Begin(login, order)))
  {
    var begun := Delivery(login, order, []);
    assert Held(begun) == order;
    ApartWith(st, Next(st, Begin(login, order)), st.begun, begun);
  }

  /** A delivery that holds nothing another one holds joins the others. */
  lemma ApartWith(st: State, st': State, d: nat, del: Delivery)
    requires Apart(st) && d !in st.deliveries && st'.deliveries == st.deliveries[d := del]
    requires forall e, id | e in st.deliveries && Has(Held(del), id) :: !Has(Held(st.deliveries[e]), id)
    ensures Apart(st')
  {
  }

  lemma BeginKeeps(st: State, login: string, order: seq<Item>)
    requires Inv(st) && Selects(st.rows, login, order) && Exclusive(st, Begin(login, order))
    ensures Inv(Next(st, Begin(login, order)))
  {
    var st' := Next(st, Begin(login, order));
    BeginKeepsApart(st, login, order);
    BeginKeepsEach(st, login, order);
    forall id ensures Given(st', id) <==> Given(st, id) {
      if Given(st, id) {
        var e :| e in st.deliveries && Has(st.deliveries[e].done, id);
        assert Has(st'.deliveries[e].done, id);
      }
    }
  }

  lemma CommitKeeps(st: State, d: nat)
    requires Inv(st) && d in st.deliveries && st.deliveries[d].queue == [] && st.deliveries[d].done == []
    ensures Inv(Next(st, Commit(d)))
  {
    var st' := Next(st, Commit(d));
    forall id ensures Given(st', id) <==> Given(st, id) {
      if Given(st, id) {
        var e :| e in st.deliveries && Has(st.deliveries[e].done, id);
        assert e != d ==> Has(st'.deliveries[e].done, id);
      }
    }
  }

  lemma InsertKeeps(st: State, sender: nat, login: string, text: string, sentAt: int)
    requires Inv(st) && sender in st.senders
    ensures Inv(Next(st, Insert(sender, login, text, sentAt)))
  {
    var st' := Next(st, Insert(sender, login, text, sentAt));
    assert st.nextId !in st.rows;
    forall d | d in st.deliveries ensures DeliveryOk(st'.rows, st.deliveries[d]) {}
    forall d | d in st.deliveries ensures !Has(st.deliveries[d].done, st.nextId) {
      DoneIsHeld(st.deliveries[d], st.nextId);
    }
    forall id ensures Given(st', id) <==> Given(st, id) {}
  }

  lemma StepKeeps(st: State, step: Step)
    requires Inv(st) && Exclusive(st, step)
    ensures Inv(Next(st, step))
  {
    if Next(st, step) != st {
      if step.Insert? {
        InsertKeeps(st, step.sender, step.login, step.text, step.sentAt);
      } else if step.Begin? {
        BeginKeeps(st, step.login, step.order);
      } else if step.SendOne? {
        SendOneKeeps(st, step.delivery);
      } else if step.DeleteOne? {
        DeleteOneKeeps(st, step.delivery);
      } else if step.Commit? {
        CommitKeeps(st, step.delivery);
      } else {
        SameStore(st, Next(st, step));
      }
    }
  }

  lemma SameStore(st: State, st': State)
    requires Inv(st) && st' == st.(senders := st'.senders)
    ensures Inv(st')
  {
    forall id ensures Given(st', id) <==> Given(st, id) {}
  }

  lemma {:induction false} InvThroughout(steps: seq<Step>)
    requires ExclusiveThroughout(steps)
    ensures Inv(Run(Empty, steps))
    decreases |steps|
  {
    if steps != [] {
      var front := steps[..|steps| - 1];
      forall i | 0 <= i < |front| ensures Exclusive(Run(Empty, front[..i]), front[i]) {
        assert front[..i] == steps[..i];
      }
      InvThroughout(front);
      assert steps[..|steps| - 1] == front;
      StepKeeps(Run(Empty, front), steps[|steps| - 1]);
    }
  }

  /** With exclusive deliveries every accepted message is, at every moment, waiting in the table, or
      has been handed over exactly once; while it is both, its delivery is about to delete it. */
  lemma ExactlyOnce(steps: seq<Step>, id: nat)
    requires ExclusiveThroughout(steps) && id < Run(Empty, steps).nextId
    ensures var st := Run(Empty, steps);
            && Times(st.log, id) <= 1
            && (id in st.rows || Times(st.log, id) == 1)
            && (id in st.rows && Times(st.log, id) == 1 <==> id in st.rows && Given(st, id))
            && (st.deliveries == map[] ==> (id in st.rows <==> Times(st.log, id) == 0))
  {
    InvThroughout(steps);
  }

  // ---- What senders and deliveries come to ----

  /** A message to a user with fewer than 50 pending messages is stored as it was sent; any other is
      not stored at all. */
  lemma SendEffect(st: State, sender: nat, recipient: string, login: string, text: string, sentAt: int)
    requires sender !in st.senders
    ensures var st' := Next(Next(st, CheckCount(sender, recipient)), Insert(sender, login, text, sentAt));
            && st'.senders == st.senders && st'.deliveries == st.deliveries && st'.log == st.log
            && st'.begun == st.begun
            && if |PendingFor(st.rows, recipient)| < 50
               then && st'.rows == st.rows[st.nextId := Row(login, recipient, text, sentAt)]
                    && st'.nextId == st.nextId + 1
               else st'.rows == st.rows && st'.nextId == st.nextId
  {
    if |PendingFor(st.rows, recipient)| < 50 {
      assert st.senders[sender := recipient] - {sender} == st.senders;
    }
  }

  lemma {:induction false} Inserted(items: seq<Item>, item: Item) returns (order: seq<Item>)
    requires Ordered(items) && Distinct(items) && forall i | 0 <= i < |items| :: items[i].id != item.id
    ensures Ordered(order) && Distinct(order)
    ensures forall x :: x in order <==> x in items || x == item
  {
    if items == [] || items[|items| - 1].row.sentAt <= item.row.sentAt {
      order := items + [item];
    } else {
      var front, last := items[..|items| - 1], items[|items| - 1];
      assert items == front + [last];
      var rest := Inserted(front, item);
      order := rest + [last];
      forall i | 0 <= i < |rest| ensures rest[i].row.sentAt <= last.row.sentAt && rest[i].id != last.id {
        assert rest[i] in rest;
        if rest[i] != item {
          var j :| 0 <= j < |front| && front[j] == rest[i];
          assert items[j] == rest[i];
        }
      }
    }
  }

  lemma {:induction false} Arranged(rows: map<nat, Row>, ids: set<nat>) returns (order: seq<Item>)
    requires ids <= rows.Keys
    ensures Ordered(order) && Distinct(order)
    ensures forall x: Item :: x in order <==> x.id in ids && x.row == rows[x.id]
    decreases |ids|
  {
    if ids == {} {
      order := [];
    } else {
      var id :| id in ids;
      var rest := Arranged(rows, ids - {id});
      var item := Item(id, rows[id]);
      forall i | 0 <= i < |rest| ensures rest[i].id != id { assert rest[i] in rest; }
      order := Inserted(rest, item);
      forall x: Item ensures x in order <==> x.id in ids && x.row == rows[x.id] {
        assert x in order <==> x in rest || x == item;
      }
    }
  }

  /** Whatever is pending, a delivery can select it in the order of sending, and begin with it. */
  lemma DeliveryCanBegin(st: State, login: string) returns (order: seq<Item>)
    ensures Selects(st.rows, login, order)
    ensures var st' := Next(st, Begin(login, order));
            && st'.deliveries == st.deliveries[st.begun := Delivery(login, order, [])]
            && st'.begun == st.begun + 1 && st'.rows == st.rows && st'.log == st.log
    ensures Ids(order) == PendingFor(st.rows, login)
  {
    order := Arranged(st.rows, PendingFor(st.rows, login));
    forall i | 0 <= i < |order|
      ensures order[i].id in PendingFor(st.rows, login) && order[i].row == st.rows[order[i].id]
    {
      assert order[i] in order;
    }
    forall id | id in PendingFor(st.rows, login) ensures exists i :: 0 <= i < |order| && order[i].id == id {
      var item := Item(id, st.rows[id]);
      assert item in order;
    }
  }

  /** What is handed over when the rows of a queue are sent. */
  function HandOvers(d: nat, login: string, items: seq<Item>): seq<HandOver> {
    if items == [] then []
    else HandOvers(d, login, items[..|items| - 1]) + [HandOver(d, login, items[|items| - 1])]
  }

  lemma {:induction false} HandOversFirst(d: nat, login: string, items: seq<Item>)
    requires items != []
    ensures HandOvers(d, login, items) == [HandOver(d, login, items[0])] + HandOvers(d, login, items[1..])
    decreases |items|
  {
    if |items| > 1 {
      var front := items[..|items| - 1];
      HandOversFirst(d, login, front);
      assert items[1..][..|items[1..]| - 1] == front[1..];
    }
  }

  lemma {:induction false} RunFirst(st: State, step: Step, steps: seq<Step>)
    ensures Run(st, [step] + steps) == Run(Next(st, step), steps)
    decreases |steps|
  {
    if steps == [] {
      assert [step] + steps == [step] && [step][..0] == [];
      assert Run(st, []) == st;
    } else {
      assert ([step] + steps)[..|steps|] == [step] + steps[..|steps| - 1];
      RunFirst(st, step, steps[..|steps| - 1]);
    }
  }

  lemma {:induction false} SendAll(st: State, d: nat) returns (steps: seq<Step>)
    requires d in st.deliveries
    ensures var del := st.deliveries[d];
            Run(st, steps) == st.(deliveries := st.deliveries[d := Delivery(del.login, [], del.done + del.queue)],
                                  log := st.log + HandOvers(d, del.login, del.queue))
    decreases |st.deliveries[d].queue|
  {
    var del := st.deliveries[d];
    if del.queue == [] {
      steps := [];
      assert del.done + del.queue == del.done && st.log + HandOvers(d, del.login, del.queue) == st.log;
    } else {
      var st1 := Next(st, SendOne(d));
      var rest := SendAll(st1, d);
      steps := [SendOne(d)] + rest;
      RunFirst(st, SendOne(d), rest);
      HandOversFirst(d, del.login, del.queue);
      assert del.done + [del.queue[0]] + del.queue[1..] == del.done + del.queue;
    }
  }

  lemma {:induction false} DeleteAll(st: State, d: nat) returns (steps: seq<Step>)
    requires d in st.deliveries && st.deliveries[d].queue == []
    ensures Run(st, steps) == st.(rows := st.rows - Ids(st.deliveries[d].done), deliveries := st.deliveries - {d})
    decreases |st.deliveries[d].done|
  {
    var done := st.deliveries[d].done;
    if done == [] {
      steps := [Commit(d)];
      RunFirst(st, Commit(d), []);
      assert Run(Next(st, Commit(d)), []) == Next(st, Commit(d)) && [Commit(d)] + [] == steps;
      assert st.rows - Ids(done) == st.rows;
    } else {
      var st1 := Next(st, DeleteOne(d));
      var rest := DeleteAll(st1, d);
      steps := [DeleteOne(d)] + rest;
      RunFirst(st, DeleteOne(d), rest);
      IdsCons(done);
      assert st1.deliveries - {d} == st.deliveries - {d};
      assert st.rows - {done[0].id} - Ids(done[1..]) == st.rows - Ids(done);
    }
  }

  lemma IdsCons(items: seq<Item>)
    requires items != []
    ensures Ids(items) == {items[0].id} + Ids(items[1..])
  {
    forall id | id in Ids(items) ensures id in {items[0].id} + Ids(items[1..]) {
      var i :| 0 <= i < |items| && items[i].id == id;
      if i > 0 { assert items[1..][i - 1].id == id; }
    }
    forall id | id in Ids(items[1..]) ensures id in Ids(items) {
      var i :| 0 <= i < |items[1..]| && items[1..][i].id == id;
      assert items[i + 1].id == id;
    }
  }

  /** A delivery can always be brought to its end: all its queued messages are handed over in order,
      and exactly the rows it had in hand are gone. */
  lemma DeliveryCompletes(st: State, d: nat) returns (steps: seq<Step>)
    requires d in st.deliveries
    ensures var (st', del) := (Run(st, steps), st.deliveries[d]);
            && st'.rows == st.rows - Ids(Held(del)) && st'.deliveries == st.deliveries - {d}
            && st'.log == st.log + HandOvers(d, del.login, del.queue)
            && st'.nextId == st.nextId && st'.senders == st.senders
  {
    var first := SendAll(st, d);
    var st1 := Run(st, first);
    var second := DeleteAll(st1, d);
    steps := first + second;
    RunAppend(st, first, second);
    assert st1.deliveries - {d} == st.deliveries - {d};
  }

  // ---- When deliveries overlap ----

  lemma {:induction false} TimesGrow(st: State, steps: seq<Step>, id: nat)
    ensures Times(Run(st, steps).log, id) >= Times(st.log, id)
    decreases |steps|
  {
    if steps != [] {
      var st1 := Run(st, steps[..|steps| - 1]);
      TimesGrow(st, steps[..|steps| - 1], id);
      if Next(st1, steps[|steps| - 1]).log != st1.log {
        var del := st1.deliveries[steps[|steps| - 1].delivery];
        TimesMore(st1.log, HandOver(steps[|steps| - 1].delivery, del.login, del.queue[0]), id);
      }
    }
  }

  lemma RunMore(st: State, steps: seq<Step>, step: Step)
    ensures Run(st, steps + [step]) == Next(Run(st, steps), step)
  {
    assert (steps + [step])[..|steps|] == steps;
  }

  /** A delivery can always go on until its `k`-th queued row is sent; other deliveries stay. */
  lemma {:induction false} SendUpTo(st: State, d: nat, k: nat) returns (steps: seq<Step>)
    requires d in st.deliveries && k < |st.deliveries[d].queue|
    ensures var st' := Run(st, steps);
            && d in st'.deliveries && st'.deliveries[d].queue == st.deliveries[d].queue[k + 1..]
            && (forall e | e in st.deliveries && e != d :: e in st'.deliveries && st'.deliveries[e] == st.deliveries[e])
            && Times(st'.log, st.deliveries[d].queue[k].id) > Times(st.log, st.deliveries[d].queue[k].id)
  {
    var x := st.deliveries[d].queue[k];
    var front: seq<Step> := [];
    assert Run(st, []) == st;
    if k > 0 {
      front := SendUpTo(st, d, k - 1);
    }
    var st1 := Run(st, front);
    TimesGrow(st, front, x.id);
    assert st1.deliveries[d].queue == st.deliveries[d].queue[k..];
    steps := front + [SendOne(d)];
    RunMore(st, front, SendOne(d));
    TimesMore(st1.log, HandOver(d, st1.deliveries[d].login, x), x.id);
  }

  /** If a delivery begins while another one has some of its rows in hand, then sending on leads to
      a message that is handed over twice: the condition of `ExactlyOnce` cannot be weakened. */
  lemma OverlapDuplicates(st: State, login: string, order: seq<Item>, d: nat, id: nat) returns (more: seq<Step>)
    requires Inv(st) && Selects(st.rows, login, order) && Has(order, id)
    requires d in st.deliveries && Has(Held(st.deliveries[d]), id)
    ensures Times(Run(Next(st, Begin(login, order)), more).log, id) >= 2
  {
    var st0, del := Next(st, Begin(login, order)), st.deliveries[d];
    DoneIsHeld(del, id);
    var first: seq<Step> := [];
    assert Run(st0, []) == st0;
    if Has(del.done, id) {
      assert Given(st, id) && id in st.rows;
      assert Times(st0.log, id) == 1;
    } else {
      var k :| 0 <= k < |del.queue| && del.queue[k].id == id;
      first := SendUpTo(st0, d, k);
    }
    var st1 := Run(st0, first);
    assert st.begun in st1.deliveries && st1.deliveries[st.begun].queue == order;
    var j :| 0 <= j < |order| && order[j].id == id;
    var second := SendUpTo(st1, st.begun, j);
    more := first + second;
    RunAppend(st0, first, second);
  }

  lemma {:induction false} RunAppend(st: State, a: seq<Step>, b: seq<Step>)
    ensures Run(st, a + b) == Run(Run(st, a), b)
    decreases |b|
  {
    if b == [] {
      assert a + b == a;
    } else {
      var front := b[..|b| - 1];
      assert (a + b)[..|a + b| - 1] == a + front;
      RunAppend(st, a, front);
    }
  }

  // ---- Order and addressee ----

  predicate Earlier(h: HandOver, items: seq<Item>) {
    forall k | 0 <= k < |items| :: h.item.row.sentAt <= items[k].row.sentAt
  }

  ghost predicate LogOrdered(log: seq<HandOver>) {
    forall i, j | 0 <= i < j < |log| && log[i].delivery == log[j].delivery ::
      log[i].item.row.sentAt <= log[j].item.row.sentAt
  }

  ghost predicate Addressed(log: seq<HandOver>) {
    forall i | 0 <= i < |log| :: log[i].item.row.recipient == log[i].login
  }

  ghost predicate OrderInv(st: State) {
    && LogOrdered(st.log) && Addressed(st.log)
    && (forall i | 0 <= i < |st.log| :: st.log[i].delivery < st.begun)
    && (forall d | d in st.deliveries :: d < st.begun && Ordered(st.deliveries[d].queue)
          && forall k | 0 <= k < |st.deliveries[d].queue| ::
             st.deliveries[d].queue[k].row.recipient == st.deliveries[d].login)
    && (forall i | 0 <= i < |st.log| && st.log[i].delivery in st.deliveries ::
          Earlier(st.log[i], st.deliveries[st.log[i].delivery].queue))
  }

  lemma SendKeepsOrder(st: State, d: nat)
    requires OrderInv(st) && d in st.deliveries && st.deliveries[d].queue != []
    ensures OrderInv(Next(st, SendOne(d)))
  {
    var st' := Next(st, SendOne(d));
    var queue := st.deliveries[d].queue;
    assert forall k | 0 <= k < |queue[1..]| :: queue[1..][k] == queue[k + 1];
    assert forall i | 0 <= i < |st.log| && st.log[i].delivery == d :: Earlier(st.log[i], queue);
    forall i | 0 <= i < |st'.log| && st'.log[i].delivery in st'.deliveries
      ensures Earlier(st'.log[i], st'.deliveries[st'.log[i].delivery].queue)
    {
      assert i < |st.log| ==> st'.log[i] == st.log[i];
    }
  }

  lemma StepKeepsOrder(st: State, step: Step)
    requires OrderInv(st)
    ensures OrderInv(Next(st, step))
  {
    if step.SendOne? && step.delivery in st.deliveries && st.deliveries[step.delivery].queue != [] {
      SendKeepsOrder(st, step.delivery);
    }
  }

  /** Every delivery hands its messages over in the order in which they were sent, and to the user
      they are addressed to, in every interleaving. */
  lemma {:induction false} DeliveredInOrder(steps: seq<Step>)
    ensures OrderInv(Run(Empty, steps))
    ensures LogOrdered(Run(Empty, steps).log) && Addressed(Run(Empty, steps).log)
    decreases |steps|
  {
    if steps != [] {
      DeliveredInOrder(steps[..|steps| - 1]);
      StepKeepsOrder(Run(Empty, steps[..|steps| - 1]), steps[|steps| - 1]);
    }
  }

  // ---- The limit ----

  function Sending(st: State, login: string): set<nat> {
    set s | s in st.senders && st.senders[s] == login
  }

  ghost predicate SendersAtMost(st: State, login: string, k: nat) {
    |Sending(st, login)| <= k
  }

  ghost predicate SendersAtMostThroughout(steps: seq<Step>, login: string, k: nat) {
    forall i | 0 <= i <= |steps| :: SendersAtMost(Run(Empty, steps[..i]), login, k)
  }

  function Admitted(st: State, login: string): nat {
    |PendingFor(st.rows, login)| + |Sending(st, login)|
  }

  lemma Smaller<T>(a: set<T>, b: set<T>)
    requires a <= b
    ensures |a| <= |b|
  {
    assert a + (b - a) == b;
  }

  lemma InsertAdmits(st: State, step: Step, login: string)
    requires step.Insert? && step.sender in st.senders && st.nextId !in st.rows
    ensures Admitted(Next(st, step), login) == Admitted(st, login)
  {
    var row := Row(step.login, st.senders[step.sender], step.text, step.sentAt);
    RowsAfter(st.rows, st.nextId, row, login);
    SendersAfter(st, Next(st, step), step.sender, login);
  }

  lemma RowsAfter(rows: map<nat, Row>, id: nat, row: Row, login: string)
    requires id !in rows
    ensures |PendingFor(rows[id := row], login)| == |PendingFor(rows, login)| + if row.recipient == login then 1 else 0
  {
    assert PendingFor(rows[id := row], login) == PendingFor(rows, login) + if row.recipient == login then {id} else {};
  }

  lemma SendersAfter(st: State, st': State, sender: nat, login: string)
    requires sender in st.senders && st'.senders == st.senders - {sender}
    ensures |Sending(st', login)| == |Sending(st, login)| - if st.senders[sender] == login then 1 else 0
  {
    assert Sending(st', login) == Sending(st, login) - if st.senders[sender] == login then {sender} else {};
  }

  lemma StepAdmits(st: State, step: Step, login: string, k: nat)
    requires k >= 1 && Admitted(st, login) <= LIMIT - 1 + k
    requires SendersAtMost(Next(st, step), login, k) && forall id | id in st.rows :: id < st.nextId
    ensures Admitted(Next(st, step), login) <= LIMIT - 1 + k
    ensures forall id | id in Next(st, step).rows :: id < Next(st, step).nextId
  {
    var st' := Next(st, step);
    if step.Insert? && step.sender in st.senders {
      InsertAdmits(st, step, login);
    } else if step.CheckCount? && st' != st {
      if step.recipient != login {
        assert Sending(st', login) == Sending(st, login);
      }
    } else {
      assert Sending(st', login) == Sending(st, login);
      Smaller(PendingFor(st'.rows, login), PendingFor(st.rows, login));
    }
  }

  /** With at most `k` senders to a user between the check and the insertion, the messages pending
      or about to be stored for the user are never more than 49 + `k`. */
  lemma {:induction false} AdmittedAtMost(steps: seq<Step>, login: string, k: nat)
    requires k >= 1 && SendersAtMostThroughout(steps, login, k)
    ensures var st := Run(Empty, steps);
            && (forall id | id in st.rows :: id < st.nextId)
            && Admitted(st, login) <= LIMIT - 1 + k
            && |PendingFor(st.rows, login)| <= LIMIT - 1 + k
    decreases |steps|
  {
    if steps == [] {
      assert PendingFor(Empty.rows, login) == {} && Sending(Empty, login) == {};
    } else {
      var front := steps[..|steps| - 1];
      forall i | 0 <= i <= |front| ensures SendersAtMost(Run(Empty, front[..i]), login, k) {
        assert front[..i] == steps[..i];
      }
      AdmittedAtMost(front, login, k);
      assert steps[..|steps|] == steps;
      StepAdmits(Run(Empty, front), steps[|steps| - 1], login, k);
    }
  }

  // ---- The delivery loops ----

  function Ids(items: seq<Item>): set<nat> {
    set i | 0 <= i < |items| :: items[i].id
  }

  lemma StoredPending(rows: map<nat, Row>, id: nat, row: Row)
    requires id !in rows
    ensures PendingFor(rows[id := row], row.recipient) == PendingFor(rows, row.recipient) + {id}
    ensures |PendingFor(rows[id := row], row.recipient)| == |PendingFor(rows, row.recipient)| + 1
  {
    assert PendingFor(rows[id := row], row.recipient) == PendingFor(rows, row.recipient) + {id};
  }

  class Mailbox {
    var rows: map<nat, Row>
    var nextId: nat

    constructor ()
      ensures rows == map[] && nextId == 0
    {
      rows, nextId := map[], 0;
    }

    /** `wd_message_message_send_offline_message`, from the count check on. */
    method Store(login: string, recipient: string, text: string, sentAt: int) returns (stored: bool)
      requires forall id | id in rows :: id < nextId
      modifies this
      ensures forall id | id in rows :: id < nextId
      ensures stored <==> |PendingFor(old(rows), recipient)| < LIMIT
      ensures rows == if stored then old(rows)[old(nextId) := Row(login, recipient, text, sentAt)] else old(rows)
      ensures stored ==> |PendingFor(rows, recipient)| == |PendingFor(old(rows), recipient)| + 1 <= LIMIT
    {
      stored := |PendingFor(rows, recipient)| < LIMIT;
      if stored {
        StoredPending(rows, nextId, Row(login, recipient, text, sentAt));
        rows, nextId := rows[nextId := Row(login, recipient, text, sentAt)], nextId + 1;
      }
    }

    /** The delivery at login: send every fetched row, and then delete the rows that were sent. */
    method Deliver(login: string, fetched: seq<Item>) returns (sent: seq<Row>)
      requires Selects(rows, login, fetched)
      modifies this`rows
      ensures rows == old(rows) - PendingFor(old(rows), login)
      ensures |sent| == |fetched| == |PendingFor(old(rows), login)|
      ensures forall i | 0 <= i < |sent| :: sent[i] == fetched[i].row && sent[i].recipient == login
      ensures forall i, j | 0 <= i < j < |sent| :: sent[i].sentAt <= sent[j].sentAt
    {
      sent := [];
      var delivered: seq<nat> := [];
      for i := 0 to |fetched|
        invariant |sent| == |delivered| == i
        invariant forall j | 0 <= j < i :: sent[j] == fetched[j].row && delivered[j] == fetched[j].id
      {
        sent, delivered := sent + [fetched[i].row], delivered + [fetched[i].id];
      }
      for i := 0 to |delivered|
        invariant rows == old(rows) - Ids(fetched[..i])
      {
        assert Ids(fetched[..i + 1]) == Ids(fetched[..i]) + {fetched[i].id} by {
          assert fetched[..i + 1] == fetched[..i] + [fetched[i]];
          IdsSnoc(fetched[..i], fetched[i]);
        }
        rows := rows - {delivered[i]};
      }
      assert fetched[..|delivered|] == fetched;
      assert Ids(fetched) == PendingFor(old(rows), login);
      IdsCount(fetched);
    }
  }

  lemma IdsSnoc(items: seq<Item>, item: Item)
    ensures Ids(items + [item]) == Ids(items) + {item.id}
  {
    var more := items + [item];
    assert more[|items|] == item;
    assert forall i | 0 <= i < |items| :: more[i] == items[i];
    forall id | id in Ids(items) ensures id in Ids(more) {
      var i :| 0 <= i < |items| && items[i].id == id;
      assert more[i].id == id;
    }
  }

  lemma {:induction false} IdsCount(items: seq<Item>)
    requires Distinct(items)
    ensures |Ids(items)| == |items|
    decreases |items|
  {
    if items != [] {
      var front := items[..|items| - 1];
      assert items == front + [items[|items| - 1]];
      IdsSnoc(front, items[|items| - 1]);
      IdsCount(front);
    }
  }
}
