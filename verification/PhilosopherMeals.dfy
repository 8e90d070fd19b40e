/**
 When the philosophers eat: an attempt ends in eating exactly if both chopsticks
 granted it, and from whatever state a run has reached every philosopher can
 still get to eat (examples/dynamic_behavior/dining_philosophers.cpp).
 */
module PhilosopherMeals {
  import opened Basics
  import opened Philosophers

  // -- how an attempt ends ----------------------------------------------------

  ghost predicate Answers(m: Msg, p: nat) {
    m.Taken? && m.phil == p
  }

  /** The answers that `p` reads between two points of a run. */
  ghost function AnswersTo(ms: seq<Msg>, i: nat, j: nat, p: nat): seq<Msg>
    requires i <= j <= |ms|
    decreases j
  {
    if i == j then [] else
    AnswersTo(ms, i, j - 1, p) + if Answers(ms[j - 1], p) then [ms[j - 1]] else []
  }

  /** What a philosopher does after the given answers of an attempt. */
  ghost function Verdict(got: seq<Msg>): Behavior
    requires |got| <= 2 && forall i :: 0 <= i < |got| ==> got[i].Taken?
  {
    if |got| == 0 then Hungry
    else if |got| == 1 then (if got[0].ok then Granted else Denied)
    else if got[0].ok && got[1].ok then Eating else Thinking
  }

  /** The answers so far come from different chopsticks of `p`, and `p` acts on them. */
  ghost predicate AttemptOk(n: nat, s: Ring, p: nat, got: seq<Msg>) {
    && p < |s.phils| && |got| <= 2
    && (forall i :: 0 <= i < |got| ==> Answers(got[i], p) && (got[i].stick == Left(p) || got[i].stick == Right(n, p)))
    && (|got| == 2 ==> got[0].stick != got[1].stick)
    && s.phils[p] == Verdict(got)
    && (|got| == 1 ==> Open(s, got[0].stick, p) == 0)
  }

  lemma Untouched(n: nat, s: Ring, m: Msg, q: nat)
    requires Inv(n, s) && Enabled(n, s, m) && q < n && m.phil != q
    ensures Seated(n, Deliver(n, s, m)) && Same(s, Deliver(n, s, m), q)
  {
    assert PhilOk(n, s, m.phil);
    OwnPhil(n, s, m);
    OtherPhil(n, s, m, q);
  }

  lemma SameAttempt(n: nat, s: Ring, s': Ring, p: nat, got: seq<Msg>)
    requires Seated(n, s) && Seated(n, s') && p < n && Same(s, s', p) && AttemptOk(n, s, p, got)
    ensures AttemptOk(n, s', p, got)
  {
  }

  lemma OthersKeepAttempt(n: nat, s: Ring, m: Msg, p: nat, got: seq<Msg>)
    requires Inv(n, s) && Enabled(n, s, m) && AttemptOk(n, s, p, got) && m.phil != p
    ensures AttemptOk(n, Deliver(n, s, m), p, got)
  {
    Untouched(n, s, m, p);
    SameAttempt(n, s, Deliver(n, s, m), p, got);
  }

  lemma SticksKeepAttempt(n: nat, s: Ring, m: Msg, p: nat, got: seq<Msg>)
    requires Inv(n, s) && Enabled(n, s, m) && AttemptOk(n, s, p, got) && m.phil == p && (m.Take? || m.Put?)
    ensures AttemptOk(n, Deliver(n, s, m), p, got)
  {
    if |got| == 1 {
      var c := got[0].stick;
      if m.Take? {
        TakeMail(n, s, m, c);
      } else {
        assert Deliver(n, s, m).mail == s.mail - multiset{m};
      }
    }
  }

  lemma AnswerEndsRequest(n: nat, s: Ring, m: Msg)
    requires Inv(n, s) && Enabled(n, s, m) && m.Taken?
    ensures Open(Deliver(n, s, m), m.stick, m.phil) == 0 < Open(s, m.stick, m.phil)
  {
    var c, p := m.stick, m.phil;
    assert PhilOk(n, s, p);
    ReplyMail(n, s, m, Take(c, p));
    ReplyMail(n, s, m, Taken(c, p, true));
    ReplyMail(n, s, m, Taken(c, p, false));
  }

  lemma AnswerMovesAttempt(n: nat, s: Ring, m: Msg, p: nat, got: seq<Msg>)
    requires Inv(n, s) && Enabled(n, s, m) && AttemptOk(n, s, p, got) && Answers(m, p)
    ensures AttemptOk(n, Deliver(n, s, m), p, got + [m])
  {
    AnswerEndsRequest(n, s, m);
    assert Addressed(n, m);
    assert Awaiting(s.phils[p]);
  }

  lemma AttemptNext(n: nat, s: Ring, m: Msg, p: nat, got: seq<Msg>)
    requires Inv(n, s) && Enabled(n, s, m) && AttemptOk(n, s, p, got) && Awaiting(s.phils[p])
    ensures AttemptOk(n, Deliver(n, s, m), p, got + if Answers(m, p) then [m] else [])
  {
    if Answers(m, p) {
      AnswerMovesAttempt(n, s, m, p, got);
    } else {
      assert got + [] == got;
      if m.phil == p {
        SticksKeepAttempt(n, s, m, p, got);
      } else {
        OthersKeepAttempt(n, s, m, p, got);
      }
    }
  }

  lemma AttemptBegins(n: nat, s: Ring, p: nat)
    requires Inv(n, s) && Enabled(n, s, Eat(p))
    ensures AttemptOk(n, Deliver(n, s, Eat(p)), p, [])
  {
  }

  /** An attempt that has got some answers before a delivery has got those and the delivered one after it. */
  ghost predicate Proceeds(n: nat, s: Ring, m: Msg, s': Ring, p: nat) {
    forall got :: AttemptOk(n, s, p, got) && Awaiting(s.phils[p]) ==>
      AttemptOk(n, s', p, got + if Answers(m, p) then [m] else [])
  }

  lemma RunProceeds(n: nat, ss: seq<Ring>, ms: seq<Msg>, k: nat, p: nat)
    requires IsRun(n, ss, ms) && k < |ms|
    ensures Proceeds(n, ss[k], ms[k], ss[k + 1], p)
    ensures ms[k] == Eat(p) ==> AttemptOk(n, ss[k + 1], p, [])
  {
    RunInv(n, ss, ms, k);
    if ms[k] == Eat(p) {
      AttemptBegins(n, ss[k], p);
    }
    forall got | AttemptOk(n, ss[k], p, got) && Awaiting(ss[k].phils[p])
      ensures AttemptOk(n, ss[k + 1], p, got + if Answers(ms[k], p) then [ms[k]] else [])
    {
      AttemptNext(n, ss[k], ms[k], p, got);
    }
  }

  lemma {:induction false} AttemptGoesOn(n: nat, ss: seq<Ring>, ms: seq<Msg>, i: nat, j: nat, p: nat)
    requires i <= j <= |ms| && |ss| == |ms| + 1 && AttemptOk(n, ss[i], p, [])
    requires forall x {:trigger ms[x]} :: i <= x < j ==> Proceeds(n, ss[x], ms[x], ss[x + 1], p)
    requires forall x :: i <= x < j ==> p < |ss[x].phils| && Awaiting(ss[x].phils[p])
    ensures AttemptOk(n, ss[j], p, AnswersTo(ms, i, j, p))
    decreases j
  {
    if i < j {
      AttemptGoesOn(n, ss, ms, i, j - 1, p);
      assert Proceeds(n, ss[j - 1], ms[j - 1], ss[j - 1 + 1], p);
    }
  }

  /**
   An attempt that begins at step `i`: as long as it lasts, and when it ends, the
   philosopher acts on the answers it has read. Two answers, one of each
   chopstick, end it: in eating if both are positive, in thinking otherwise.
   */
  lemma AttemptEndsAsAnswered(n: nat, ss: seq<Ring>, ms: seq<Msg>, i: nat, j: nat, p: nat)
    requires IsRun(n, ss, ms) && i < j < |ss| && ms[i] == Eat(p)
    requires forall x :: i < x < j ==> p < |ss[x].phils| && Awaiting(ss[x].phils[p])
    ensures AttemptOk(n, ss[j], p, AnswersTo(ms, i + 1, j, p))
  {
    RunProceeds(n, ss, ms, i, p);
    forall x | i + 1 <= x < j ensures Proceeds(n, ss[x], ms[x], ss[x + 1], p) {
      RunProceeds(n, ss, ms, x, p);
    }
    AttemptGoesOn(n, ss, ms, i + 1, j, p);
  }

  // -- everybody can always get to eat ----------------------------------------

  /** What is left to do for `p` until nothing but its wish to eat is in flight. */
  ghost function Pending(n: nat, s: Ring, p: nat): nat {
    StickPending(s, Left(p), p) + StickPending(s, Right(n, p), p) + 3 * s.mail[Think(p)]
  }

  ghost function StickPending(s: Ring, c: nat, p: nat): nat {
    5 * s.mail[Take(c, p)] + 4 * s.mail[Taken(c, p, true)] + 4 * s.mail[Taken(c, p, false)] + s.mail[Put(c, p)]
  }

  ghost function AllPending(n: nat, s: Ring, k: nat): nat {
    if k == 0 then 0 else AllPending(n, s, k - 1) + Pending(n, s, k - 1)
  }

  /** Every delivery except that of a wish to eat leaves less to do for its philosopher. */
  lemma LessPending(n: nat, s: Ring, m: Msg)
    requires Inv(n, s) && Enabled(n, s, m) && !m.Eat?
    ensures Pending(n, Deliver(n, s, m), m.phil) < Pending(n, s, m.phil)
  {
    assert PhilOk(n, s, m.phil);
    match m
    case Take(_, _) => LessAfterTake(n, s, m);
    case Put(_, _) => LessAfterPut(n, s, m);
    case Taken(_, _, _) => LessAfterAnswer(n, s, m);
    case Think(_) => LessAfterThink(n, s, m);
  }

  lemma LessAfterTake(n: nat, s: Ring, m: Msg)
    requires Ready(n, s, m) && m.Take?
    ensures Pending(n, Deliver(n, s, m), m.phil) < Pending(n, s, m.phil)
  {
    var p := m.phil;
    forall c: nat
      ensures StickPending(Deliver(n, s, m), c, p) == StickPending(s, c, p) - if c == m.stick then 1 else 0
    {
      AnswerMail(n, s, m, Take(c, p));
      AnswerMail(n, s, m, Taken(c, p, true));
      AnswerMail(n, s, m, Taken(c, p, false));
      AnswerMail(n, s, m, Put(c, p));
    }
    AnswerMail(n, s, m, Think(p));
  }

  lemma LessAfterPut(n: nat, s: Ring, m: Msg)
    requires Ready(n, s, m) && m.Put?
    ensures Pending(n, Deliver(n, s, m), m.phil) < Pending(n, s, m.phil)
  {
    var p := m.phil;
    forall c: nat
      ensures StickPending(Deliver(n, s, m), c, p) == StickPending(s, c, p) - if c == m.stick then 1 else 0
    {
      PutMail(n, s, m, Take(c, p));
      PutMail(n, s, m, Taken(c, p, true));
      PutMail(n, s, m, Taken(c, p, false));
      PutMail(n, s, m, Put(c, p));
    }
    PutMail(n, s, m, Think(p));
  }

  lemma PutMail(n: nat, s: Ring, m: Msg, x: Msg)
    requires Seated(n, s) && m in s.mail && m.Put?
    ensures Deliver(n, s, m).mail[x] == s.mail[x] - if x == m then 1 else 0
  {
  }

  /** Reading an answer sends at most one put, or a think token. */
  lemma AnswerSends(n: nat, s: Ring, m: Msg) returns (puts: seq<Msg>)
    requires Ready(n, s, m) && m.Taken?
    ensures |puts| <= 1 && forall c: nat ::
      Deliver(n, s, m).mail[Put(c, m.phil)] == s.mail[Put(c, m.phil)] + if puts == [Put(c, m.phil)] then 1 else 0
    ensures Deliver(n, s, m).mail[Think(m.phil)] <= s.mail[Think(m.phil)] + if puts == [] then 1 else 0
  {
    var p, left, right := m.phil, Left(m.phil), Right(n, m.phil);
    puts := if s.phils[p].Granted? && !m.ok then [Put(if m.stick == left then right else left, p)]
            else if s.phils[p].Denied? && m.ok then [Put(if m.stick == left then left else right, p)]
            else [];
  }

  lemma LessAfterAnswer(n: nat, s: Ring, m: Msg)
    requires Ready(n, s, m) && m.Taken?
    ensures Pending(n, Deliver(n, s, m), m.phil) < Pending(n, s, m.phil)
  {
    var p := m.phil;
    var puts := AnswerSends(n, s, m);
    forall c: nat
      ensures StickPending(Deliver(n, s, m), c, p)
           == StickPending(s, c, p) - (if c == m.stick then 4 else 0) + if puts == [Put(c, p)] then 1 else 0
    {
      ReplyMail(n, s, m, Take(c, p));
      ReplyMail(n, s, m, Taken(c, p, true));
      ReplyMail(n, s, m, Taken(c, p, false));
    }
  }

  lemma LessAfterThink(n: nat, s: Ring, m: Msg)
    requires Ready(n, s, m) && m.Think?
    ensures Pending(n, Deliver(n, s, m), m.phil) < Pending(n, s, m.phil)
  {
    var p := m.phil;
    forall c: nat | c == Left(p) || c == Right(n, p)
      ensures StickPending(Deliver(n, s, m), c, p) <= StickPending(s, c, p) + 1
    {
      ThinkMail(n, s, m, Take(c, p));
      ThinkMail(n, s, m, Taken(c, p, true));
      ThinkMail(n, s, m, Taken(c, p, false));
      ThinkMail(n, s, m, Put(c, p));
    }
    ThinkMail(n, s, m, m);
  }

  /** Thinking on sends at most one put to each chopstick. */
  lemma ThinkMail(n: nat, s: Ring, m: Msg, x: Msg)
    requires Seated(n, s) && m in s.mail && m.Think?
    ensures !x.Put? && !x.Eat? ==> Deliver(n, s, m).mail[x] == s.mail[x] - if x == m then 1 else 0
    ensures x.Put? ==> Deliver(n, s, m).mail[x] <= s.mail[x] + 1
  {
    assert Left(m.phil) != Right(n, m.phil);
  }

  lemma {:induction false} AllLess(n: nat, s: Ring, s': Ring, p: nat, k: nat)
    requires Pending(n, s', p) < Pending(n, s, p)
    requires forall q :: 0 <= q < k && q != p ==> Pending(n, s', q) == Pending(n, s, q)
    ensures if p < k then AllPending(n, s', k) < AllPending(n, s, k) else AllPending(n, s', k) == AllPending(n, s, k)
  {
    if k > 0 {
      AllLess(n, s, s', p, k - 1);
    }
  }

  lemma SamePending(n: nat, s: Ring, s': Ring, q: nat)
    requires Seated(n, s) && Seated(n, s') && q < n && Same(s, s', q)
    ensures Pending(n, s', q) == Pending(n, s, q)
  {
  }

  lemma LessToDo(n: nat, s: Ring, m: Msg)
    requires Inv(n, s) && Enabled(n, s, m) && !m.Eat?
    ensures AllPending(n, Deliver(n, s, m), n) < AllPending(n, s, n)
  {
    LessPending(n, s, m);
    forall q | 0 <= q < n && q != m.phil ensures Pending(n, Deliver(n, s, m), q) == Pending(n, s, q) {
      Untouched(n, s, m, q);
      SamePending(n, s, Deliver(n, s, m), q);
    }
    AllLess(n, s, Deliver(n, s, m), m.phil, n);
  }

  lemma {:induction false} SomebodyPending(n: nat, s: Ring, k: nat) returns (p: nat)
    requires AllPending(n, s, k) > 0
    ensures p < k && Pending(n, s, p) > 0
  {
    if Pending(n, s, k - 1) > 0 {
      p := k - 1;
    } else {
      p := SomebodyPending(n, s, k - 1);
    }
  }

  /** As long as something is left to do, something other than a wish to eat can be delivered. */
  lemma SomethingToDo(n: nat, s: Ring) returns (m: Msg)
    requires Inv(n, s) && AllPending(n, s, n) > 0
    ensures Enabled(n, s, m) && !m.Eat?
  {
    var p := SomebodyPending(n, s, n);
    assert PhilOk(n, s, p);
    if s.mail[Put(Left(p), p)] > 0 {
      m := Put(Left(p), p);
    } else if s.mail[Put(Right(n, p), p)] > 0 {
      m := Put(Right(n, p), p);
    } else if Awaiting(s.phils[p]) {
      var c := if Open(s, Left(p), p) > 0 then Left(p) else Right(n, p);
      m := if Take(c, p) in s.mail then Take(c, p) else Taken(c, p, Taken(c, p, true) in s.mail);
    } else {
      m := Think(p);
    }
  }

  /** One delivery that leaves less to do, if anything is left to do. */
  lemma DoesSomething(n: nat, ss: seq<Ring>, ms: seq<Msg>) returns (ss': seq<Ring>, ms': seq<Msg>)
    requires IsRun(n, ss, ms) && AllPending(n, ss[|ms|], n) > 0
    ensures IsRun(n, ss', ms') && ss <= ss' && ms <= ms'
    ensures AllPending(n, ss'[|ms'|], n) < AllPending(n, ss[|ms|], n)
  {
    var s := ss[|ms|];
    RunInv(n, ss, ms, |ms|);
    var m := SomethingToDo(n, s);
    LessToDo(n, s, m);
    ExtendRun(n, ss, ms, m, Deliver(n, s, m));
    ss', ms' := ss + [Deliver(n, s, m)], ms + [m];
  }

  /** Every run can go on until nothing but wishes to eat is in flight. */
  lemma {:induction false} SettlesDown(n: nat, ss: seq<Ring>, ms: seq<Msg>) returns (ss': seq<Ring>, ms': seq<Msg>)
    requires IsRun(n, ss, ms)
    ensures IsRun(n, ss', ms') && ss <= ss' && ms <= ms' && AllPending(n, ss'[|ms'|], n) == 0
    decreases AllPending(n, ss[|ms|], n)
  {
    ss', ms' := ss, ms;
    if AllPending(n, ss[|ms|], n) > 0 {
      ss', ms' := DoesSomething(n, ss, ms);
      ss', ms' := SettlesDown(n, ss', ms');
    }
  }

  lemma {:induction false} NobodyPending(n: nat, s: Ring, k: nat, p: nat)
    requires AllPending(n, s, k) == 0 && p < k
    ensures Pending(n, s, p) == 0
  {
    if p < k - 1 {
      NobodyPending(n, s, k - 1, p);
    }
  }

  /** Then everybody thinks, and all chopsticks are available. */
  lemma AllAvailable(n: nat, s: Ring, p: nat)
    requires Inv(n, s) && AllPending(n, s, n) == 0 && p < n
    ensures s.phils[p].Thinking? && s.sticks[p].None? && Eat(p) in s.mail
  {
    NobodyPending(n, s, n, p);
    assert PhilOk(n, s, p);
    if s.sticks[p].Some? {
      var q := s.sticks[p].value;
      assert Addressed(n, Put(p, q));
      NobodyPending(n, s, n, q);
      HoldsNothing(n, s, p, q);
    }
  }

  lemma HoldsNothing(n: nat, s: Ring, c: nat, q: nat)
    requires Inv(n, s) && q < n && c < n && (c == Left(q) || c == Right(n, q)) && Pending(n, s, q) == 0
    ensures s.sticks[c] != Some(q)
  {
    assert PhilOk(n, s, q);
  }

  /** The chopstick is free and asked for by `p`. */
  ghost predicate Asked(s: Ring, c: nat, p: nat) {
    c < |s.sticks| && s.sticks[c].None? && Take(c, p) in s.mail
  }

  lemma AsksForBoth(n: nat, s: Ring, p: nat)
    requires Seated(n, s) && p < n && Eat(p) in s.mail && s.phils[p].Thinking?
    requires s.sticks[Left(p)].None? && s.sticks[Right(n, p)].None?
    ensures Enabled(n, s, Eat(p))
    ensures var s' := Deliver(n, s, Eat(p));
      s'.phils[p].Hungry? && Asked(s', Left(p), p) && Asked(s', Right(n, p), p)
  {
  }

  lemma GetsStick(n: nat, s: Ring, c: nat, d: nat, p: nat)
    requires Seated(n, s) && p < n && s.phils[p].Hungry? && Asked(s, c, p) && c != d
    ensures Enabled(n, s, Take(c, p))
    ensures var s' := Deliver(n, s, Take(c, p));
      && s'.phils[p].Hungry? && Taken(c, p, true) in s'.mail
      && (Asked(s, d, p) ==> Asked(s', d, p))
      && (Taken(d, p, true) in s.mail ==> Taken(d, p, true) in s'.mail)
  {
  }

  lemma EatsWithBoth(n: nat, s: Ring, c: nat, d: nat, p: nat)
    requires Seated(n, s) && p < n && s.phils[p].Hungry? && c != d
    requires Taken(c, p, true) in s.mail && Taken(d, p, true) in s.mail
    ensures Enabled(n, s, Taken(c, p, true))
    ensures var s' := Deliver(n, s, Taken(c, p, true));
      Seated(n, s') ==> Enabled(n, s', Taken(d, p, true)) && Deliver(n, s', Taken(d, p, true)).phils[p].Eating?
  {
  }

  lemma Continue(n: nat, ss: seq<Ring>, ms: seq<Msg>, m: Msg) returns (ss': seq<Ring>, ms': seq<Msg>)
    requires IsRun(n, ss, ms) && Enabled(n, ss[|ms|], m)
    ensures IsRun(n, ss', ms') && ss <= ss' && ms <= ms'
    ensures ss'[|ms'|] == Deliver(n, ss[|ms|], m) && Seated(n, ss'[|ms'|])
  {
    ExtendRun(n, ss, ms, m, Deliver(n, ss[|ms|], m));
    SeatedNext(n, ss[|ms|], m);
    ss', ms' := ss + [Deliver(n, ss[|ms|], m)], ms + [m];
  }

  /** From a state in which all is quiet, `p` asks for both chopsticks and is granted both. */
  lemma GetsBothSticks(n: nat, ss: seq<Ring>, ms: seq<Msg>, p: nat) returns (ss': seq<Ring>, ms': seq<Msg>)
    requires IsRun(n, ss, ms) && p < n && Seated(n, ss[|ms|])
    requires ss[|ms|].phils[p].Hungry? && Asked(ss[|ms|], Left(p), p) && Asked(ss[|ms|], Right(n, p), p)
    ensures IsRun(n, ss', ms') && ss <= ss' && ms <= ms' && Seated(n, ss'[|ms'|])
    ensures var s := ss'[|ms'|];
      s.phils[p].Hungry? && Taken(Left(p), p, true) in s.mail && Taken(Right(n, p), p, true) in s.mail
  {
    GetsStick(n, ss[|ms|], Left(p), Right(n, p), p);
    ss', ms' := Continue(n, ss, ms, Take(Left(p), p));
    GetsStick(n, ss'[|ms'|], Right(n, p), Left(p), p);
    ss', ms' := Continue(n, ss', ms', Take(Right(n, p), p));
  }

  lemma ReadsBothAnswers(n: nat, ss: seq<Ring>, ms: seq<Msg>, p: nat) returns (ss': seq<Ring>, ms': seq<Msg>)
    requires IsRun(n, ss, ms) && p < n && Seated(n, ss[|ms|]) && ss[|ms|].phils[p].Hungry?
    requires Taken(Left(p), p, true) in ss[|ms|].mail && Taken(Right(n, p), p, true) in ss[|ms|].mail
    ensures IsRun(n, ss', ms') && ss <= ss' && ms <= ms'
    ensures p < |ss'[|ms'|].phils| && ss'[|ms'|].phils[p].Eating?
  {
    EatsWithBoth(n, ss[|ms|], Left(p), Right(n, p), p);
    ss', ms' := Continue(n, ss, ms, Taken(Left(p), p, true));
    ss', ms' := Continue(n, ss', ms', Taken(Right(n, p), p, true));
  }

  lemma BecomesHungry(n: nat, ss: seq<Ring>, ms: seq<Msg>, p: nat) returns (ss': seq<Ring>, ms': seq<Msg>)
    requires IsRun(n, ss, ms) && p < n && AllPending(n, ss[|ms|], n) == 0
    ensures IsRun(n, ss', ms') && ss <= ss' && ms <= ms' && Seated(n, ss'[|ms'|])
    ensures ss'[|ms'|].phils[p].Hungry? && Asked(ss'[|ms'|], Left(p), p) && Asked(ss'[|ms'|], Right(n, p), p)
  {
    RunInv(n, ss, ms, |ms|);
    AllAvailable(n, ss[|ms|], Left(p));
    AllAvailable(n, ss[|ms|], Right(n, p));
    AsksForBoth(n, ss[|ms|], p);
    ss', ms' := Continue(n, ss, ms, Eat(p));
  }

  /** Whatever has happened so far, every philosopher can still get to eat. */
  lemma EverybodyCanEat(n: nat, ss: seq<Ring>, ms: seq<Msg>, p: nat) returns (ss': seq<Ring>, ms': seq<Msg>)
    requires IsRun(n, ss, ms) && p < n
    ensures IsRun(n, ss', ms') && ss <= ss' && ms <= ms'
    ensures p < |ss'[|ms'|].phils| && ss'[|ms'|].phils[p].Eating?
  {
    ss', ms' := SettlesDown(n, ss, ms);
    ss', ms' := BecomesHungry(n, ss', ms', p);
    ss', ms' := GetsBothSticks(n, ss', ms', p);
    ss', ms' := ReadsBothAnswers(n, ss', ms', p);
  }
}
