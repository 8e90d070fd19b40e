/**
 The table with a mailbox per actor: a chopstick handles its messages in the
 order of their arrival, a philosopher takes the first message that its current
 behavior accepts and skips those before it. Every turn of an actor is a delivery
 of the protocol, so what holds of the protocol holds of the table.
 */
module PhilosopherMail {
  import opened Basics
  import opened Philosophers

  /** `sticks` and `seats` are the mailboxes of chopsticks and philosophers. */
  datatype Table = Table(
    users: seq<Option<nat>>,
    behaviors: seq<Behavior>,
    sticks: seq<seq<Msg>>,
    seats: seq<seq<Msg>>,
    complaints: nat)

  predicate ForStick(n: nat, c: nat, m: Msg)
    requires n > 0
  {
    (m.Take? || m.Put?) && m.stick == c && Addressed(n, m)
  }

  predicate ForSeat(n: nat, p: nat, m: Msg)
    requires n > 0
  {
    (m.Taken? || m.Eat? || m.Think?) && m.phil == p && Addressed(n, m)
  }

  predicate Sized(n: nat, t: Table) {
    2 <= n == |t.users| == |t.behaviors| == |t.sticks| == |t.seats|
  }

  /** `n` chopsticks and seats, and every message in the mailbox of its receiver. */
  ghost predicate Laid(n: nat, t: Table) {
    && Sized(n, t)
    && (forall c, m :: 0 <= c < n && m in t.sticks[c] ==> ForStick(n, c, m))
    && (forall p, m :: 0 <= p < n && m in t.seats[p] ==> ForSeat(n, p, m))
  }

  // -- turns ------------------------------------------------------------------

  predicate Handles(b: Behavior, m: Msg) {
    match m
    case Taken(_, _, _) => Awaiting(b)
    case Eat(_) => b.Thinking?
    case Think(_) => b.Starting? || b.Eating?
    case _ => false
  }

  /** Position of the first message that `b` accepts, or the end of the mailbox. */
  function FirstHandled(b: Behavior, box: seq<Msg>): (i: nat)
    ensures i <= |box| && (i < |box| ==> Handles(b, box[i]))
    ensures forall j :: 0 <= j < i ==> !Handles(b, box[j])
  {
    if box == [] || Handles(b, box[0]) then 0 else 1 + FirstHandled(b, box[1..])
  }

  predicate HasBox(t: Table, m: Msg) {
    if m.Take? || m.Put? then m.stick < |t.sticks| else m.phil < |t.seats|
  }

  /** Appends a message to the mailbox of its receiver. */
  function Send(t: Table, m: Msg): (t': Table)
    requires HasBox(t, m)
    ensures |t'.sticks| == |t.sticks| && |t'.seats| == |t.seats|
  {
    if m.Take? || m.Put? then t.(sticks := t.sticks[m.stick := t.sticks[m.stick] + [m]])
    else t.(seats := t.seats[m.phil := t.seats[m.phil] + [m]])
  }

  function Become(t: Table, p: nat, b: Behavior): Table
    requires p < |t.behaviors|
  {
    t.(behaviors := t.behaviors[p := b])
  }

  /** What philosopher `p` does with a message that its behavior accepts. */
  function React(n: nat, t: Table, p: nat, m: Msg): Table
    requires Sized(n, t) && p < n && Handles(t.behaviors[p], m)
  {
    var left, right := Left(p), Right(n, p);
    match t.behaviors[p]
    case Starting => Send(Become(t, p, Thinking), Eat(p))
    case Thinking => Send(Send(Become(t, p, Hungry), Take(left, p)), Take(right, p))
    case Hungry => Become(t, p, if m.ok then Granted else Denied)
    case Granted =>
      if m.ok then Send(Become(t, p, Eating), Think(p))
      else Send(Send(Become(t, p, Thinking), Put(if m.stick == left then right else left, p)), Eat(p))
    case Denied =>
      var t1 := Become(t, p, Thinking);
      Send(if m.ok then Send(t1, Put(if m.stick == left then left else right, p)) else t1, Eat(p))
    case Eating => Send(Send(Send(Become(t, p, Thinking), Put(left, p)), Put(right, p)), Eat(p))
  }

  function SeatTurn(n: nat, t: Table, p: nat): Table
    requires Sized(n, t) && p < n
  {
    var box := t.seats[p];
    var i := FirstHandled(t.behaviors[p], box);
    if i == |box| then t else React(n, t.(seats := t.seats[p := Without(box, i)]), p, box[i])
  }

  /** What chopstick `c` does with the first message in its mailbox. */
  function StickReact(t: Table, c: nat, m: Msg): Table
    requires c < |t.users| && (m.Take? || m.Put?) && m.phil < |t.seats|
  {
    if m.Take? then
      if t.users[c].None? then Send(t.(users := t.users[c := Some(m.phil)]), Taken(c, m.phil, true))
      else Send(t, Taken(c, m.phil, false))
    else
      if t.users[c].None? then t.(complaints := t.complaints + 1)
      else if t.users[c] == Some(m.phil) then t.(users := t.users[c := None])
      else t
  }

  function StickTurn(n: nat, t: Table, c: nat): Table
    requires Sized(n, t) && c < n && (t.sticks[c] != [] ==> ForStick(n, c, t.sticks[c][0]))
  {
    if t.sticks[c] == [] then t
    else StickReact(t.(sticks := t.sticks[c := t.sticks[c][1..]]), c, t.sticks[c][0])
  }

  // -- the bag of all mailboxes -----------------------------------------------

  function Total<E>(boxes: seq<seq<E>>): multiset<E> {
    if boxes == [] then multiset{} else Total(boxes[..|boxes| - 1]) + multiset(boxes[|boxes| - 1])
  }

  /** The state of the protocol that the table shows. */
  function Abs(t: Table): Ring {
    Ring(t.users, t.behaviors, Total(t.sticks) + Total(t.seats), t.complaints)
  }

  lemma {:induction false} TotalUpdate<E>(boxes: seq<seq<E>>, i: nat, box: seq<E>)
    requires i < |boxes|
    ensures Total(boxes[i := box]) + multiset(boxes[i]) == Total(boxes) + multiset(box)
  {
    var k := |boxes| - 1;
    if i == k {
      assert boxes[i := box][..k] == boxes[..k];
    } else {
      TotalUpdate(boxes[..k], i, box);
      assert boxes[i := box][..k] == boxes[..k][i := box];
      AddBoth(Total(boxes[..k][i := box]), multiset(boxes[i]), Total(boxes[..k]), multiset(box), multiset(boxes[k]));
    }
  }

  lemma AddBoth<E>(a: multiset<E>, x: multiset<E>, b: multiset<E>, y: multiset<E>, c: multiset<E>)
    requires a + x == b + y
    ensures a + c + x == b + c + y
  {
    assert a + c + x == (a + x) + c;
    assert b + c + y == (b + y) + c;
  }

  lemma TotalAdd<E>(boxes: seq<seq<E>>, i: nat, x: E)
    requires i < |boxes|
    ensures Total(boxes[i := boxes[i] + [x]]) == Total(boxes) + multiset{x}
  {
    TotalUpdate(boxes, i, boxes[i] + [x]);
    Cancel(Total(boxes[i := boxes[i] + [x]]), Total(boxes), multiset(boxes[i]), x);
  }

  lemma Cancel<E>(a: multiset<E>, b: multiset<E>, c: multiset<E>, x: E)
    requires a + c == b + (c + multiset{x})
    ensures a == b + multiset{x}
  {
    assert a == a + c - c;
    assert b + multiset{x} == b + (c + multiset{x}) - c;
  }

  lemma TotalRemove<E>(boxes: seq<seq<E>>, i: nat, j: nat)
    requires i < |boxes| && j < |boxes[i]|
    ensures boxes[i][j] in Total(boxes)
    ensures Total(boxes[i := Without(boxes[i], j)]) == Total(boxes) - multiset{boxes[i][j]}
  {
    var box, x := boxes[i], boxes[i][j];
    TotalUpdate(boxes, i, Without(box, j));
    WithoutCounts(box, j);
    Cancel(Total(boxes), Total(boxes[i := Without(box, j)]), multiset(Without(box, j)), x);
  }

  lemma {:induction false} TotalHas<E>(boxes: seq<seq<E>>, x: E) returns (i: nat)
    requires x in Total(boxes)
    ensures i < |boxes| && x in boxes[i]
  {
    var k := |boxes| - 1;
    if x in multiset(boxes[k]) {
      i := k;
    } else {
      i := TotalHas(boxes[..k], x);
    }
  }

  // -- each turn is a delivery ------------------------------------------------

  lemma SendAbs(t: Table, m: Msg)
    requires HasBox(t, m)
    ensures Abs(Send(t, m)) == Abs(t).(mail := Abs(t).mail + multiset{m})
  {
    if m.Take? || m.Put? {
      TotalAdd(t.sticks, m.stick, m);
      Middle(Total(t.sticks), m, Total(t.seats));
    } else {
      TotalAdd(t.seats, m.phil, m);
      Middle(Total(t.seats), m, Total(t.sticks));
    }
  }

  lemma Middle<E>(a: multiset<E>, x: E, b: multiset<E>)
    ensures a + multiset{x} + b == a + b + multiset{x} && b + (a + multiset{x}) == b + a + multiset{x}
    ensures a + b == b + a
  {
  }

  lemma SendLaid(n: nat, t: Table, m: Msg)
    requires Laid(n, t) && Addressed(n, m)
    ensures HasBox(t, m) && Laid(n, Send(t, m))
  {
    assert m.phil < n && Right(n, m.phil) < n;
  }

  /** Reacting to a message is what the protocol does on delivery, once the message is out of flight. */
  lemma ReactAbs(n: nat, t: Table, p: nat, m: Msg)
    requires Sized(n, t) && p < n && Handles(t.behaviors[p], m) && m.phil == p
    ensures Abs(React(n, t, p, m))
         == if m.Taken? then OnTaken(n, Abs(t), m.stick, p, m.ok)
            else if m.Eat? then OnEat(n, Abs(t), p) else OnThink(n, Abs(t), p)
  {
    var left, right := Left(p), Right(n, p);
    match t.behaviors[p]
    case Starting => SendAbs(Become(t, p, Thinking), Eat(p));
    case Thinking => SendTwo(Become(t, p, Hungry), Take(left, p), Take(right, p));
    case Hungry =>
    case Granted =>
      if m.ok {
        SendAbs(Become(t, p, Eating), Think(p));
      } else {
        SendTwo(Become(t, p, Thinking), Put(if m.stick == left then right else left, p), Eat(p));
      }
    case Denied =>
      if m.ok {
        SendTwo(Become(t, p, Thinking), Put(if m.stick == left then left else right, p), Eat(p));
      } else {
        SendAbs(Become(t, p, Thinking), Eat(p));
      }
    case Eating =>
      var t1 := Become(t, p, Thinking);
      SendTwo(t1, Put(left, p), Put(right, p));
      SendAbs(Send(Send(t1, Put(left, p)), Put(right, p)), Eat(p));
  }

  lemma SendTwo(t: Table, a: Msg, b: Msg)
    requires HasBox(t, a) && HasBox(t, b)
    ensures Abs(Send(Send(t, a), b)) == Abs(t).(mail := Abs(t).mail + multiset{a} + multiset{b})
  {
    SendAbs(t, a);
    SendAbs(Send(t, a), b);
  }

  lemma ReactLaid(n: nat, t: Table, p: nat, m: Msg)
    requires Laid(n, t) && p < n && Handles(t.behaviors[p], m)
    ensures Laid(n, React(n, t, p, m))
  {
    var left, right := Left(p), Right(n, p);
    match t.behaviors[p]
    case Starting => SendLaid(n, Become(t, p, Thinking), Eat(p));
    case Thinking => SendTwoLaid(n, Become(t, p, Hungry), Take(left, p), Take(right, p));
    case Hungry =>
    case Granted =>
      if m.ok {
        SendLaid(n, Become(t, p, Eating), Think(p));
      } else {
        SendTwoLaid(n, Become(t, p, Thinking), Put(if m.stick == left then right else left, p), Eat(p));
      }
    case Denied =>
      if m.ok {
        SendTwoLaid(n, Become(t, p, Thinking), Put(if m.stick == left then left else right, p), Eat(p));
      } else {
        SendLaid(n, Become(t, p, Thinking), Eat(p));
      }
    case Eating =>
      var t1 := Become(t, p, Thinking);
      SendTwoLaid(n, t1, Put(left, p), Put(right, p));
      SendLaid(n, Send(Send(t1, Put(left, p)), Put(right, p)), Eat(p));
  }

  lemma SendTwoLaid(n: nat, t: Table, a: Msg, b: Msg)
    requires Laid(n, t) && Addressed(n, a) && Addressed(n, b)
    ensures HasBox(t, a) && HasBox(t, b) && Laid(n, Send(Send(t, a), b))
  {
    SendLaid(n, t, a);
    SendLaid(n, Send(t, a), b);
  }

  /** A philosopher's turn delivers the first message that it accepts, if there is one. */
  lemma SeatTurnDelivers(n: nat, t: Table, p: nat)
    requires Laid(n, t) && p < n
    ensures Laid(n, SeatTurn(n, t, p))
    ensures var i := FirstHandled(t.behaviors[p], t.seats[p]);
      if i == |t.seats[p]| then SeatTurn(n, t, p) == t
      else var m := t.seats[p][i];
        Enabled(n, Abs(t), m) && Abs(SeatTurn(n, t, p)) == Deliver(n, Abs(t), m)
  {
    var box := t.seats[p];
    var i := FirstHandled(t.behaviors[p], box);
    if i < |box| {
      var m, t1 := box[i], t.(seats := t.seats[p := Without(box, i)]);
      assert m in box && ForSeat(n, p, m);
      TookOutLaid(n, t, p, i);
      TotalRemove(t.seats, p, i);
      LaidSeated(n, t);
      AbsTookOut(t, t1, m);
      ReactAbs(n, t1, p, m);
      ReactLaid(n, t1, p, m);
    }
  }

  lemma AbsTookOut(t: Table, t': Table, m: Msg)
    requires t' == t.(sticks := t'.sticks, seats := t'.seats)
    requires
      || (t'.sticks == t.sticks && m in Total(t.seats) && Total(t'.seats) == Total(t.seats) - multiset{m})
      || (t'.seats == t.seats && m in Total(t.sticks) && Total(t'.sticks) == Total(t.sticks) - multiset{m})
    ensures Abs(t') == Abs(t).(mail := Abs(t).mail - multiset{m}) && m in Abs(t).mail
  {
    if t'.sticks == t.sticks {
      OneLess(Total(t.sticks), Total(t.seats), m);
    } else {
      OneLess(Total(t.seats), Total(t.sticks), m);
    }
  }

  lemma OneLess<E>(a: multiset<E>, b: multiset<E>, x: E)
    requires x in b
    ensures a + (b - multiset{x}) == a + b - multiset{x}
    ensures b - multiset{x} + a == b + a - multiset{x}
    ensures x in a + b && x in b + a
  {
  }

  lemma TookOutLaid(n: nat, t: Table, p: nat, i: nat)
    requires Laid(n, t) && p < n && i < |t.seats[p]|
    ensures Laid(n, t.(seats := t.seats[p := Without(t.seats[p], i)]))
  {
    forall m | m in Without(t.seats[p], i) ensures m in t.seats[p] {
    }
  }

  lemma LaidSeated(n: nat, t: Table)
    requires Laid(n, t)
    ensures Seated(n, Abs(t))
  {
    forall m | m in Abs(t).mail ensures Addressed(n, m) {
      if m in Total(t.sticks) {
        var c := TotalHas(t.sticks, m);
        assert ForStick(n, c, m);
      } else {
        var p := TotalHas(t.seats, m);
        assert ForSeat(n, p, m);
      }
    }
  }

  /** A chopstick's turn delivers the oldest message in its mailbox, if there is one. */
  lemma StickTurnDelivers(n: nat, t: Table, c: nat)
    requires Laid(n, t) && c < n
    ensures t.sticks[c] != [] ==> ForStick(n, c, t.sticks[c][0])
    ensures Laid(n, StickTurn(n, t, c))
    ensures if t.sticks[c] == [] then StickTurn(n, t, c) == t
      else var m := t.sticks[c][0];
        Enabled(n, Abs(t), m) && Abs(StickTurn(n, t, c)) == Deliver(n, Abs(t), m)
  {
    var box := t.sticks[c];
    if box != [] {
      var m, t1 := box[0], t.(sticks := t.sticks[c := box[1..]]);
      assert m in box && ForStick(n, c, m);
      assert Without(box, 0) == box[1..];
      TotalRemove(t.sticks, c, 0);
      LaidSeated(n, t);
      AbsTookOut(t, t1, m);
      StickReactAbs(n, t1, c, m);
    }
  }

  lemma StickReactAbs(n: nat, t: Table, c: nat, m: Msg)
    requires Laid(n, t) && c < n && ForStick(n, c, m)
    ensures Laid(n, StickReact(t, c, m))
    ensures Abs(StickReact(t, c, m)) == if m.Take? then OnTake(Abs(t), c, m.phil) else OnPut(Abs(t), c, m.phil)
  {
    if m.Take? {
      var t1 := if t.users[c].None? then t.(users := t.users[c := Some(m.phil)]) else t;
      SendAbs(t1, Taken(c, m.phil, t.users[c].None?));
      SendLaid(n, t1, Taken(c, m.phil, t.users[c].None?));
    }
  }

  // -- whole runs -------------------------------------------------------------

  datatype Turn = OfStick(c: nat) | OfSeat(p: nat)

  function Start(n: nat): Table {
    Table(seq(n, _ => None), seq(n, _ => Starting), seq(n, _ => []), seq(n, (p: nat) => [Think(p)]), 0)
  }

  ghost predicate TurnNext(n: nat, t: Table, turn: Turn, t': Table)
    requires Laid(n, t)
  {
    match turn
    case OfStick(c) =>
      && c < n && (t.sticks[c] != [] ==> ForStick(n, c, t.sticks[c][0]))
      && t' == StickTurn(n, t, c)
    case OfSeat(p) => p < n && t' == SeatTurn(n, t, p)
  }

  /** Actors take turns in any order; a turn without a message to handle changes nothing. */
  ghost predicate IsTableRun(n: nat, ts: seq<Table>, turns: seq<Turn>) {
    && n >= 2 && |ts| == |turns| + 1
    && ts[0] == Start(n)
    && forall i :: 0 <= i < |turns| ==> Laid(n, ts[i]) && TurnNext(n, ts[i], turns[i], ts[i + 1])
  }

  lemma {:induction false} TotalEmpty<E>(boxes: seq<seq<E>>)
    requires forall i :: 0 <= i < |boxes| ==> boxes[i] == []
    ensures Total(boxes) == multiset{}
  {
    if boxes != [] {
      TotalEmpty(boxes[..|boxes| - 1]);
    }
  }

  lemma {:induction false} TotalThoughts(boxes: seq<seq<Msg>>, n: nat)
    requires |boxes| == n && forall p :: 0 <= p < n ==> boxes[p] == [Think(p)]
    ensures Total(boxes) == Thoughts(n)
  {
    if n > 0 {
      TotalThoughts(boxes[..n - 1], n - 1);
      assert multiset(boxes[n - 1]) == multiset{Think(n - 1)};
    }
  }

  lemma StartAbs(n: nat)
    requires n >= 2
    ensures Laid(n, Start(n)) && Abs(Start(n)) == Initial(n)
  {
    TotalEmpty(Start(n).sticks);
    TotalThoughts(Start(n).seats, n);
  }

  /** A turn of the table is a delivery of the protocol, or nothing. */
  lemma TurnDelivers(n: nat, t: Table, turn: Turn, t': Table) returns (ms: seq<Msg>)
    requires Laid(n, t) && TurnNext(n, t, turn, t')
    ensures Laid(n, t')
    ensures if ms == [] then t' == t
      else |ms| == 1 && Enabled(n, Abs(t), ms[0]) && Abs(t') == Deliver(n, Abs(t), ms[0])
  {
    match turn
    case OfStick(c) =>
      StickTurnDelivers(n, t, c);
      ms := if t.sticks[c] == [] then [] else [t.sticks[c][0]];
    case OfSeat(p) =>
      SeatTurnDelivers(n, t, p);
      var i := FirstHandled(t.behaviors[p], t.seats[p]);
      ms := if i == |t.seats[p]| then [] else [t.seats[p][i]];
  }

  ghost predicate Shown(n: nat, t: Table, ss: seq<Ring>, ms: seq<Msg>) {
    Laid(n, t) && IsRun(n, ss, ms) && ss[|ms|] == Abs(t)
  }

  /** Every run of the table shows a run of the protocol. */
  lemma {:induction false} TableRunIsRun(n: nat, ts: seq<Table>, turns: seq<Turn>, k: nat)
    returns (ss: seq<Ring>, ms: seq<Msg>)
    requires IsTableRun(n, ts, turns) && k < |ts|
    ensures Shown(n, ts[k], ss, ms)
  {
    if k == 0 {
      StartAbs(n);
      ss, ms := [Initial(n)], [];
    } else {
      var i := k - 1;
      ss, ms := TableRunIsRun(n, ts, turns, i);
      var more := TurnDelivers(n, ts[i], turns[i], ts[i + 1]);
      if more != [] {
        ExtendRun(n, ss, ms, more[0], Abs(ts[i + 1]));
        ss, ms := ss + [Abs(ts[i + 1])], ms + [more[0]];
      }
    }
  }

  /** Neighbours never eat together, and no chopstick ever complains about a put. */
  lemma TableIsSafe(n: nat, ts: seq<Table>, turns: seq<Turn>, k: nat, p: nat)
    requires IsTableRun(n, ts, turns) && k < |ts| && p < n
    ensures |ts[k].behaviors| == n && !(ts[k].behaviors[p].Eating? && ts[k].behaviors[Right(n, p)].Eating?)
    ensures ts[k].complaints == 0
  {
    var ss, ms := TableRunIsRun(n, ts, turns, k);
    NeighboursExclude(n, ss, ms, |ms|, p);
    PutsAreExpected(n, ss, ms, |ms|);
  }

  /** A put is in flight exactly if it is in the mailbox of its chopstick. */
  lemma PutInFlight(n: nat, t: Table, c: nat, p: nat)
    requires Laid(n, t) && c < n
    ensures Put(c, p) in Abs(t).mail <==> Put(c, p) in t.sticks[c]
  {
    var m := Put(c, p);
    if m in t.sticks[c] {
      var j :| 0 <= j < |t.sticks[c]| && t.sticks[c][j] == m;
      TotalRemove(t.sticks, c, j);
    }
    if m in Total(t.sticks) {
      var d := TotalHas(t.sticks, m);
      assert ForStick(n, d, m);
    } else if m in Total(t.seats) {
      var q := TotalHas(t.seats, m);
      assert false;
    }
  }

  /** At the table, too, a philosopher that awaits no answer eats exactly with both chopsticks and no put under way. */
  lemma TableEatsExactlyWithBothSticks(n: nat, ts: seq<Table>, turns: seq<Turn>, k: nat, p: nat)
    requires IsTableRun(n, ts, turns) && k < |ts| && p < n && p < |ts[k].behaviors| && !Awaiting(ts[k].behaviors[p])
    ensures Sized(n, ts[k])
    ensures var t, left, right := ts[k], Left(p), Right(n, p);
      t.behaviors[p].Eating? <==>
        && t.users[left] == Some(p) && t.users[right] == Some(p)
        && Put(left, p) !in t.sticks[left] && Put(right, p) !in t.sticks[right]
  {
    var ss, ms := TableRunIsRun(n, ts, turns, k);
    EatsExactlyWithBothSticks(n, ss, ms, |ms|, p);
    PutInFlight(n, ts[k], Left(p), p);
    PutInFlight(n, ts[k], Right(n, p), p);
  }

  /**
   No skipping leaves a philosopher stuck: its own mailbox holds a message that
   it accepts, or one of its two chopsticks has a message to handle.
   */
  lemma TableNeverStuck(n: nat, ts: seq<Table>, turns: seq<Turn>, k: nat, p: nat)
    requires IsTableRun(n, ts, turns) && k < |ts| && p < n
    ensures Laid(n, ts[k])
    ensures
      || FirstHandled(ts[k].behaviors[p], ts[k].seats[p]) < |ts[k].seats[p]|
      || Take(Left(p), p) in ts[k].sticks[Left(p)]
      || Take(Right(n, p), p) in ts[k].sticks[Right(n, p)]
  {
    var ss, ms := TableRunIsRun(n, ts, turns, k);
    var m := NeverStuck(n, ss, ms, |ms|, p);
    var t := ts[k];
    if m in Total(t.sticks) {
      var c := TotalHas(t.sticks, m);
      assert ForStick(n, c, m);
    } else {
      var q := TotalHas(t.seats, m);
      assert ForSeat(n, q, m) && m in t.seats[p];
    }
  }
}
