/**
 The actors of the example as objects: chopsticks that know their user,
 philosophers that know their behavior and the two chopsticks beside them, and a
 mailbox for each. Their methods take the turns of the table with mailboxes.
 */
module PhilosopherTable {
  import opened Basics
  import opened Philosophers
  import M = PhilosopherMail

  class Chopstick {
    const id: nat
    var user: Option<nat>
    var mailbox: seq<Msg>

    constructor (id: nat)
      ensures this.id == id && user == None && mailbox == []
    {
      this.id, user, mailbox := id, None, [];
    }
  }

  class Philosopher {
    const id: nat
    const left: Chopstick
    const right: Chopstick
    var behavior: Behavior
    var mailbox: seq<Msg>

    /** A new philosopher has told itself to think. */
    constructor (id: nat, left: Chopstick, right: Chopstick)
      ensures this.id == id && this.left == left && this.right == right
      ensures behavior == Starting && mailbox == [Think(id)]
    {
      this.id, this.left, this.right := id, left, right;
      behavior, mailbox := Starting, [Think(id)];
    }

    /** The position of the first message that is not skipped. */
    method FirstAccepted() returns (i: nat)
      ensures i == M.FirstHandled(behavior, mailbox)
    {
      i := 0;
      while i < |mailbox| && !M.Handles(behavior, mailbox[i])
        invariant i <= |mailbox|
        invariant M.FirstHandled(behavior, mailbox) == i + M.FirstHandled(behavior, mailbox[i..])
      {
        assert mailbox[i..][1..] == mailbox[i + 1..];
        i := i + 1;
      }
    }
  }

  class Table {
    const n: nat
    const sticks: seq<Chopstick>
    const phils: seq<Philosopher>
    var complaints: nat

    /** Seats and chopsticks are numbered around the table, and nobody sits on two chairs. */
    ghost predicate Wired()
      reads this
    {
      && 2 <= n == |sticks| == |phils|
      && (forall i :: 0 <= i < n ==> sticks[i].id == i)
      && (forall i :: 0 <= i < n ==>
            phils[i].id == i && phils[i].left == sticks[Left(i)] && phils[i].right == sticks[Right(n, i)])
    }

    ghost function View(): (t: M.Table)
      requires Wired()
      reads this, sticks, phils
      ensures M.Sized(n, t)
    {
      M.Table(
        seq(n, i requires 0 <= i < n reads this, sticks, phils => sticks[i].user),
        seq(n, i requires 0 <= i < n reads this, sticks, phils => phils[i].behavior),
        seq(n, i requires 0 <= i < n reads this, sticks, phils => sticks[i].mailbox),
        seq(n, i requires 0 <= i < n reads this, sticks, phils => phils[i].mailbox),
        complaints)
    }

    ghost predicate Valid()
      reads this, sticks, phils
    {
      Wired() && M.Laid(n, View())
    }

    /** Lays the table: available chopsticks, then philosophers between them. */
    constructor (n: nat)
      requires n >= 2
      ensures Valid() && this.n == n && View() == M.Start(n)
    {
      var cs: seq<Chopstick> := [];
      for i := 0 to n
        invariant |cs| == i && forall k :: 0 <= k < i ==> cs[k].id == k && cs[k].user == None && cs[k].mailbox == []
      {
        var c := new Chopstick(i);
        cs := cs + [c];
      }
      var ps: seq<Philosopher> := [];
      for i := 0 to n
        invariant |ps| == i && forall k :: 0 <= k < i ==> Arrives(ps[k], k, cs[Left(k)], cs[Right(n, k)])
        invariant forall k :: 0 <= k < n ==> cs[k].id == k && cs[k].user == None && cs[k].mailbox == []
      {
        var p := new Philosopher(i, cs[Left(i)], cs[Right(n, i)]);
        ps := ps + [p];
      }
      this.n, sticks, phils, complaints := n, cs, ps, 0;
      new;
      assert View() == M.Start(n);
      M.StartAbs(n);
    }

    static ghost predicate Arrives(p: Philosopher, i: nat, left: Chopstick, right: Chopstick)
      reads p
    {
      p.id == i && p.left == left && p.right == right && p.behavior == Starting && p.mailbox == [Think(i)]
    }

    method Send(m: Msg)
      requires Wired() && M.HasBox(View(), m)
      modifies sticks, phils
      ensures View() == M.Send(old(View()), m)
    {
      if m.Take? || m.Put? {
        sticks[m.stick].mailbox := sticks[m.stick].mailbox + [m];
      } else {
        phils[m.phil].mailbox := phils[m.phil].mailbox + [m];
      }
    }

    method Become(p: nat, b: Behavior)
      requires Wired() && p < n
      modifies phils[p]
      ensures View() == M.Become(old(View()), p, b)
    {
      phils[p].behavior := b;
    }

    /** The second answer to philosopher `p`. */
    method Decide(p: nat, c: nat, ok: bool)
      requires Wired() && p < n && (phils[p].behavior.Granted? || phils[p].behavior.Denied?)
      modifies sticks, phils
      ensures View() == M.React(n, old(View()), p, Taken(c, p, ok))
    {
      var left, right := phils[p].left.id, phils[p].right.id;
      if phils[p].behavior.Granted? {
        if ok {
          Become(p, Eating);
          Send(Think(p));
          return;
        }
        Become(p, Thinking);
        Send(Put(if c == left then right else left, p));
      } else {
        Become(p, Thinking);
        if ok {
          Send(Put(if c == left then left else right, p));
        }
      }
      Send(Eat(p));
    }

    method React(p: nat, m: Msg)
      requires Wired() && p < n && M.Handles(phils[p].behavior, m) && m.phil == p
      modifies sticks, phils
      ensures View() == M.React(n, old(View()), p, m)
    {
      var left, right := phils[p].left.id, phils[p].right.id;
      match phils[p].behavior {
        case Starting =>
          Become(p, Thinking);
          Send(Eat(p));
        case Thinking =>
          Become(p, Hungry);
          Send(Take(left, p));
          Send(Take(right, p));
        case Hungry =>
          Become(p, if m.ok then Granted else Denied);
        case Eating =>
          Become(p, Thinking);
          Send(Put(left, p));
          Send(Put(right, p));
          Send(Eat(p));
        case _ =>
          Decide(p, m.stick, m.ok);
      }
    }

    /** Philosopher `p` handles the first message it does not skip; skipped messages keep their order. */
    method SeatTurn(p: nat)
      requires Valid() && p < n
      modifies sticks, phils
      ensures Valid() && View() == M.SeatTurn(n, old(View()), p)
    {
      ghost var t := View();
      M.SeatTurnDelivers(n, t, p);
      var i := phils[p].FirstAccepted();
      var box := phils[p].mailbox;
      if i < |box| {
        assert box[i] in t.seats[p];
        phils[p].mailbox := Without(box, i);
        assert View() == t.(seats := t.seats[p := Without(box, i)]);
        React(p, box[i]);
      }
    }

    /** Chopstick `c` handles its oldest message. */
    method StickTurn(c: nat)
      requires Valid() && c < n
      modifies this, sticks, phils
      ensures M.Laid(n, old(View())) && (old(sticks[c].mailbox) != [] ==> M.ForStick(n, c, old(sticks[c].mailbox)[0]))
      ensures Valid() && View() == M.StickTurn(n, old(View()), c)
    {
      ghost var t := View();
      M.StickTurnDelivers(n, t, c);
      var s := sticks[c];
      if s.mailbox == [] {
        return;
      }
      var m := s.mailbox[0];
      s.mailbox := s.mailbox[1..];
      assert View() == t.(sticks := t.sticks[c := t.sticks[c][1..]]);
      StickReact(c, m);
    }

    method StickReact(c: nat, m: Msg)
      requires Wired() && c < n && (m.Take? || m.Put?) && m.phil < n
      modifies this, sticks, phils
      ensures View() == M.StickReact(old(View()), c, m)
    {
      var s := sticks[c];
      if m.Take? {
        var free := s.user == None;
        if free {
          s.user := Some(m.phil);
        }
        assert View() == if free then old(View()).(users := old(View()).users[c := Some(m.phil)]) else old(View());
        Send(Taken(c, m.phil, free));
      } else if s.user == None {
        complaints := complaints + 1;
      } else if s.user == Some(m.phil) {
        s.user := None;
        assert View() == old(View()).(users := old(View()).users[c := None]);
      }
    }
  }
}
