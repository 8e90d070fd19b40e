/**
 The dining philosophers as a message-passing protocol: chopstick actors that
 are available or taken, philosophers that move through six behaviors, and a
 bag of messages in flight (examples/dynamic_behavior/dining_philosophers.cpp).

 The ring may have any number of seats from two upwards, and messages may be
 delivered in any order. A philosopher skips messages its current behavior does
 not accept, so those stay in flight.
 */
module Philosophers {
  import opened Basics

  datatype Behavior = Starting | Thinking | Hungry | Granted | Denied | Eating

  datatype Msg =
    | Take(stick: nat, phil: nat)
    | Put(stick: nat, phil: nat)
    | Taken(stick: nat, phil: nat, ok: bool)
    | Eat(phil: nat)
    | Think(phil: nat)

  /** `complaints` counts runs of the "unexpected put" handler. */
  datatype Ring = Ring(sticks: seq<Option<nat>>, phils: seq<Behavior>, mail: multiset<Msg>, complaints: nat)

  // -- the ring ---------------------------------------------------------------

  function Left(p: nat): nat {
    p
  }

  function Right(n: nat, p: nat): nat {
    if p + 1 == n then 0 else p + 1
  }

  /** The wiring of the example: chopsticks `i` and `(i + 1) % n` for philosopher `i`. */
  lemma RightIsNextSeat(n: nat, p: nat)
    requires p < n
    ensures Right(n, p) == (p + 1) % n
  {
  }

  predicate Seated(n: nat, s: Ring) {
    && 2 <= n == |s.sticks| == |s.phils|
    && forall m :: m in s.mail ==> Addressed(n, m)
  }

  predicate Addressed(n: nat, m: Msg)
    requires n > 0
  {
    && m.phil < n
    && (m.Take? || m.Put? || m.Taken? ==> m.stick == Left(m.phil) || m.stick == Right(n, m.phil))
  }

  predicate Awaiting(b: Behavior) {
    b.Hungry? || b.Granted? || b.Denied?
  }

  /** Whether the receiver's current behavior handles the message. */
  predicate Accepts(s: Ring, m: Msg) {
    match m
    case Take(_, _) => true
    case Put(_, _) => true
    case Taken(_, p, _) => p < |s.phils| && Awaiting(s.phils[p])
    case Eat(p) => p < |s.phils| && s.phils[p].Thinking?
    case Think(p) => p < |s.phils| && (s.phils[p].Starting? || s.phils[p].Eating?)
  }

  // -- handlers ---------------------------------------------------------------

  function OnTake(s: Ring, c: nat, p: nat): Ring
    requires c < |s.sticks|
  {
    if s.sticks[c].None? then
      s.(sticks := s.sticks[c := Some(p)], mail := s.mail + multiset{Taken(c, p, true)})
    else
      s.(mail := s.mail + multiset{Taken(c, p, false)})
  }

  function OnPut(s: Ring, c: nat, p: nat): Ring
    requires c < |s.sticks|
  {
    if s.sticks[c].None? then s.(complaints := s.complaints + 1)
    else if s.sticks[c] == Some(p) then s.(sticks := s.sticks[c := None])
    else s
  }

  function OnTaken(n: nat, s: Ring, c: nat, p: nat, ok: bool): Ring
    requires p < |s.phils|
  {
    var left, right := Left(p), Right(n, p);
    match s.phils[p]
    case Hungry => s.(phils := s.phils[p := if ok then Granted else Denied])
    case Granted =>
      if ok then
        s.(phils := s.phils[p := Eating], mail := s.mail + multiset{Think(p)})
      else
        s.(phils := s.phils[p := Thinking],
           mail := s.mail + multiset{Put(if c == left then right else left, p)} + multiset{Eat(p)})
    case Denied =>
      var mail' := if ok then s.mail + multiset{Put(if c == left then left else right, p)} else s.mail;
      s.(phils := s.phils[p := Thinking], mail := mail' + multiset{Eat(p)})
    case _ => s
  }

  function OnEat(n: nat, s: Ring, p: nat): Ring
    requires p < |s.phils|
  {
    s.(phils := s.phils[p := Hungry],
       mail := s.mail + multiset{Take(Left(p), p)} + multiset{Take(Right(n, p), p)})
  }

  function OnThink(n: nat, s: Ring, p: nat): Ring
    requires p < |s.phils|
  {
    var mail' := if s.phils[p].Eating?
                 then s.mail + multiset{Put(Left(p), p)} + multiset{Put(Right(n, p), p)} else s.mail;
    s.(phils := s.phils[p := Thinking], mail := mail' + multiset{Eat(p)})
  }

  /** Removes `m` from flight and runs its handler. */
  function Deliver(n: nat, s: Ring, m: Msg): Ring
    requires Seated(n, s) && m in s.mail
  {
    var t := s.(mail := s.mail - multiset{m});
    match m
    case Take(c, p) => OnTake(t, c, p)
    case Put(c, p) => OnPut(t, c, p)
    case Taken(c, p, ok) => OnTaken(n, t, c, p, ok)
    case Eat(p) => OnEat(n, t, p)
    case Think(p) => OnThink(n, t, p)
  }

  // -- runs -------------------------------------------------------------------

  /** One initial think per philosopher. */
  function Thoughts(n: nat): (b: multiset<Msg>)
    ensures forall m :: b[m] == if m.Think? && m.phil < n then 1 else 0
  {
    if n == 0 then multiset{} else Thoughts(n - 1) + multiset{Think(n - 1)}
  }

  function Initial(n: nat): Ring {
    Ring(seq(n, _ => None), seq(n, _ => Starting), Thoughts(n), 0)
  }

  ghost predicate Enabled(n: nat, s: Ring, m: Msg) {
    Seated(n, s) && m in s.mail && Accepts(s, m)
  }

  ghost predicate IsRun(n: nat, ss: seq<Ring>, ms: seq<Msg>) {
    && n >= 2
    && |ss| == |ms| + 1
    && ss[0] == Initial(n)
    && forall i :: 0 <= i < |ms| ==> Enabled(n, ss[i], ms[i]) && ss[i + 1] == Deliver(n, ss[i], ms[i])
  }

  lemma ExtendRun(n: nat, ss: seq<Ring>, ms: seq<Msg>, m: Msg, s: Ring)
    requires IsRun(n, ss, ms) && Enabled(n, ss[|ms|], m) && s == Deliver(n, ss[|ms|], m)
    ensures IsRun(n, ss + [s], ms + [m])
  {
    var ss', ms' := ss + [s], ms + [m];
    forall i | 0 <= i < |ms'| ensures Enabled(n, ss'[i], ms'[i]) && ss'[i + 1] == Deliver(n, ss'[i], ms'[i]) {
      if i < |ms| {
        SameDelivery(n, ss[i], ms[i], ss[i + 1], ss'[i], ms'[i], ss'[i + 1]);
      } else {
        SameDelivery(n, ss[i], m, s, ss'[i], ms'[i], ss'[i + 1]);
      }
    }
  }

  lemma SameDelivery(n: nat, s: Ring, m: Msg, s': Ring, r: Ring, k: Msg, r': Ring)
    requires Enabled(n, s, m) && s' == Deliver(n, s, m) && r == s && k == m && r' == s'
    ensures Enabled(n, r, k) && r' == Deliver(n, r, k)
  {
  }

  // -- the invariant ----------------------------------------------------------

  /** Requests for stick `c` that `p` has not seen answered. */
  ghost function Open(s: Ring, c: nat, p: nat): nat {
    s.mail[Take(c, p)] + s.mail[Taken(c, p, true)] + s.mail[Taken(c, p, false)]
  }

  /** Whether `p` itself counts stick `c` as picked up. */
  ghost predicate Counts(s: Ring, c: nat, p: nat)
    requires p < |s.phils|
  {
    s.phils[p].Eating? || (s.phils[p].Granted? && Open(s, c, p) == 0)
  }

  ghost function Claims(s: Ring, c: nat, p: nat): nat
    requires p < |s.phils|
  {
    s.mail[Taken(c, p, true)] + s.mail[Put(c, p)] + if Counts(s, c, p) then 1 else 0
  }

  ghost predicate StickOk(s: Ring, c: nat, p: nat)
    requires c < |s.sticks| && p < |s.phils|
  {
    Claims(s, c, p) == if s.sticks[c] == Some(p) then 1 else 0
  }

  ghost predicate TokensOk(s: Ring, p: nat)
    requires p < |s.phils|
  {
    && s.mail[Eat(p)] == (if s.phils[p].Thinking? then 1 else 0)
    && s.mail[Think(p)] == if s.phils[p].Starting? || s.phils[p].Eating? then 1 else 0
  }

  ghost predicate RequestsOk(n: nat, s: Ring, p: nat)
    requires p < |s.phils|
  {
    var l, r := Open(s, Left(p), p), Open(s, Right(n, p), p);
    match s.phils[p]
    case Hungry => l == 1 && r == 1
    case Granted => l + r == 1
    case Denied => l + r == 1
    case _ => l == 0 && r == 0
  }

  ghost predicate PhilOk(n: nat, s: Ring, p: nat)
    requires Seated(n, s) && p < n
  {
    && TokensOk(s, p)
    && RequestsOk(n, s, p)
    && StickOk(s, Left(p), p)
    && StickOk(s, Right(n, p), p)
  }

  ghost predicate Inv(n: nat, s: Ring) {
    && Seated(n, s)
    && s.complaints == 0
    && (forall p :: 0 <= p < n ==> PhilOk(n, s, p))
    && (forall c :: 0 <= c < n && s.sticks[c].Some? ==> Addressed(n, Put(c, s.sticks[c].value)))
  }

  // -- every delivery keeps the invariant -------------------------------------

  lemma SeatedTokens(n: nat, s: Ring, m: Msg)
    requires Seated(n, s) && m in s.mail && (m.Eat? || m.Think?)
    ensures Seated(n, Deliver(n, s, m))
  {
  }

  lemma SeatedTaken(n: nat, s: Ring, m: Msg)
    requires Seated(n, s) && m in s.mail && m.Taken?
    ensures Seated(n, Deliver(n, s, m))
  {
  }

  lemma SeatedStick(n: nat, s: Ring, m: Msg)
    requires Seated(n, s) && m in s.mail && (m.Take? || m.Put?)
    ensures Seated(n, Deliver(n, s, m))
  {
  }

  lemma SeatedNext(n: nat, s: Ring, m: Msg)
    requires Seated(n, s) && m in s.mail
    ensures Seated(n, Deliver(n, s, m))
  {
    if m.Take? || m.Put? {
      SeatedStick(n, s, m);
    } else if m.Taken? {
      SeatedTaken(n, s, m);
    } else {
      SeatedTokens(n, s, m);
    }
  }

  /** Nothing that belongs to philosopher `q` differs between `s` and `s'`. */
  ghost predicate Same(s: Ring, s': Ring, q: nat)
    requires |s.sticks| == |s'.sticks| && q < |s.phils| && q < |s'.phils|
  {
    && s'.phils[q] == s.phils[q]
    && (forall c :: 0 <= c < |s.sticks| ==> (s'.sticks[c] == Some(q) <==> s.sticks[c] == Some(q)))
    && (forall x: Msg :: x.phil == q ==> s'.mail[x] == s.mail[x])
  }

  lemma SameOk(n: nat, s: Ring, s': Ring, q: nat)
    requires Seated(n, s) && Seated(n, s') && q < n && Same(s, s', q) && PhilOk(n, s, q)
    ensures PhilOk(n, s', q)
  {
  }

  /** A delivery to or for one philosopher leaves every other philosopher's account as it was. */
  lemma OtherPhil(n: nat, s: Ring, m: Msg, q: nat)
    requires Seated(n, s) && m in s.mail && q < n && q != m.phil
    requires m.Put? ==> s.sticks[m.stick] == Some(m.phil)
    ensures Seated(n, Deliver(n, s, m)) && Same(s, Deliver(n, s, m), q)
  {
    SeatedNext(n, s, m);
    match m
    case Take(_, _) => OtherStick(n, s, m, q);
    case Put(_, _) => OtherStick(n, s, m, q);
    case Taken(_, _, _) => OtherTaken(n, s, m, q);
    case Eat(_) =>
    case Think(_) =>
  }

  lemma OtherStick(n: nat, s: Ring, m: Msg, q: nat)
    requires Seated(n, s) && m in s.mail && q < n && q != m.phil && (m.Take? || m.Put?)
    requires m.Put? ==> s.sticks[m.stick] == Some(m.phil)
    ensures Seated(n, Deliver(n, s, m)) && Same(s, Deliver(n, s, m), q)
  {
  }

  lemma OtherTaken(n: nat, s: Ring, m: Msg, q: nat)
    requires Seated(n, s) && m in s.mail && q < n && q != m.phil && m.Taken?
    ensures Seated(n, Deliver(n, s, m)) && Same(s, Deliver(n, s, m), q)
  {
    SeatedNext(n, s, m);
  }

  ghost predicate Ready(n: nat, s: Ring, m: Msg) {
    Enabled(n, s, m) && PhilOk(n, s, m.phil)
  }

  /** Answering a take leaves the philosopher's open requests as they were. */
  lemma TakeMail(n: nat, s: Ring, m: Msg, d: nat)
    requires Seated(n, s) && m in s.mail && m.Take?
    ensures var s', p := Deliver(n, s, m), m.phil;
      && Open(s', d, p) == Open(s, d, p)
      && s'.mail[Put(d, p)] == s.mail[Put(d, p)]
      && s'.mail[Taken(d, p, true)]
         == s.mail[Taken(d, p, true)] + if d == m.stick && s.sticks[d].None? then 1 else 0
  {
  }

  lemma OwnTake(n: nat, s: Ring, m: Msg)
    requires Ready(n, s, m) && m.Take?
    ensures Seated(n, Deliver(n, s, m)) && PhilOk(n, Deliver(n, s, m), m.phil)
  {
    SeatedNext(n, s, m);
    TakeMail(n, s, m, Left(m.phil));
    TakeMail(n, s, m, Right(n, m.phil));
  }

  lemma OwnPut(n: nat, s: Ring, m: Msg)
    requires Ready(n, s, m) && m.Put?
    ensures s.sticks[m.stick] == Some(m.phil)
    ensures Seated(n, Deliver(n, s, m)) && PhilOk(n, Deliver(n, s, m), m.phil)
  {
  }

  lemma OwnFirstReply(n: nat, s: Ring, m: Msg)
    requires Ready(n, s, m) && m.Taken? && s.phils[m.phil].Hungry?
    ensures Seated(n, Deliver(n, s, m)) && PhilOk(n, Deliver(n, s, m), m.phil)
  {
  }

  lemma OwnSecondReplyGranted(n: nat, s: Ring, m: Msg)
    requires Ready(n, s, m) && m.Taken? && s.phils[m.phil].Granted?
    ensures Seated(n, Deliver(n, s, m)) && PhilOk(n, Deliver(n, s, m), m.phil)
  {
    SeatedNext(n, s, m);
  }

  lemma OwnSecondReplyDenied(n: nat, s: Ring, m: Msg)
    requires Ready(n, s, m) && m.Taken? && s.phils[m.phil].Denied?
    ensures Seated(n, Deliver(n, s, m)) && PhilOk(n, Deliver(n, s, m), m.phil)
  {
    SeatedNext(n, s, m);
  }

  lemma OwnEat(n: nat, s: Ring, m: Msg)
    requires Ready(n, s, m) && m.Eat?
    ensures Seated(n, Deliver(n, s, m)) && PhilOk(n, Deliver(n, s, m), m.phil)
  {
  }

  lemma OwnThink(n: nat, s: Ring, m: Msg)
    requires Ready(n, s, m) && m.Think?
    ensures Seated(n, Deliver(n, s, m)) && PhilOk(n, Deliver(n, s, m), m.phil)
  {
  }

  lemma OwnPhil(n: nat, s: Ring, m: Msg)
    requires Ready(n, s, m)
    ensures Seated(n, Deliver(n, s, m)) && PhilOk(n, Deliver(n, s, m), m.phil)
    ensures m.Put? ==> s.sticks[m.stick] == Some(m.phil)
  {
    match m
    case Take(_, _) => OwnTake(n, s, m);
    case Put(_, _) => OwnPut(n, s, m);
    case Eat(_) => OwnEat(n, s, m);
    case Think(_) => OwnThink(n, s, m);
    case Taken(_, p, _) =>
      if s.phils[p].Hungry? {
        OwnFirstReply(n, s, m);
      } else if s.phils[p].Granted? {
        OwnSecondReplyGranted(n, s, m);
      } else {
        OwnSecondReplyDenied(n, s, m);
      }
  }

  lemma SticksHeldBySeats(n: nat, s: Ring, m: Msg)
    requires Seated(n, s) && m in s.mail
    ensures var s' := Deliver(n, s, m);
      && |s'.sticks| == n
      && (forall c :: 0 <= c < n ==>
            || s'.sticks[c] == s.sticks[c]
            || s'.sticks[c].None?
            || (s'.sticks[c] == Some(m.phil) && m.Take? && c == m.stick))
      && s'.complaints == s.complaints + if m.Put? && s.sticks[m.stick].None? then 1 else 0
  {
  }

  lemma InvNext(n: nat, s: Ring, m: Msg)
    requires Inv(n, s) && Enabled(n, s, m)
    ensures Inv(n, Deliver(n, s, m))
  {
    var s' := Deliver(n, s, m);
    assert PhilOk(n, s, m.phil);
    OwnPhil(n, s, m);
    SticksHeldBySeats(n, s, m);
    forall q | 0 <= q < n ensures PhilOk(n, s', q) {
      if q != m.phil {
        OtherPhil(n, s, m, q);
        SameOk(n, s, s', q);
      }
    }
  }

  lemma InvInitial(n: nat)
    requires n >= 2
    ensures Inv(n, Initial(n))
  {
  }

  lemma {:induction false} RunInv(n: nat, ss: seq<Ring>, ms: seq<Msg>, k: nat)
    requires IsRun(n, ss, ms) && k < |ss|
    ensures Inv(n, ss[k])
  {
    if k == 0 {
      InvInitial(n);
    } else {
      RunInv(n, ss, ms, k - 1);
      InvNext(n, ss[k - 1], ms[k - 1]);
    }
  }

  // -- safety over whole runs -------------------------------------------------

  /** Exactly one of three things that can be true holds. */
  ghost predicate ExactlyOne(a: bool, b: bool, c: bool) {
    (a && !b && !c) || (!a && b && !c) || (!a && !b && c)
  }

  /**
   A chopstick is taken by a philosopher exactly when one of these holds: a
   positive answer to that philosopher is in flight, the philosopher counts it
   as picked up, or the philosopher's put is in flight. Never two of them, and
   never two such messages.
   */
  lemma StickAccounting(n: nat, ss: seq<Ring>, ms: seq<Msg>, k: nat, c: nat, p: nat)
    requires IsRun(n, ss, ms) && k < |ss| && p < n && (c == Left(p) || c == Right(n, p))
    ensures var s := ss[k];
      && c < |s.sticks| && p < |s.phils|
      && s.mail[Taken(c, p, true)] <= 1 && s.mail[Put(c, p)] <= 1
      && (s.sticks[c] == Some(p) <==>
            ExactlyOne(Taken(c, p, true) in s.mail, Counts(s, c, p), Put(c, p) in s.mail))
      && (s.sticks[c] != Some(p) ==>
            Taken(c, p, true) !in s.mail && !Counts(s, c, p) && Put(c, p) !in s.mail)
  {
    RunInv(n, ss, ms, k);
    assert PhilOk(n, ss[k], p);
  }

  /** Neighbours never eat at the same time. */
  lemma NeighboursExclude(n: nat, ss: seq<Ring>, ms: seq<Msg>, k: nat, p: nat)
    requires IsRun(n, ss, ms) && k < |ss| && p < n
    ensures |ss[k].phils| == n && !(ss[k].phils[p].Eating? && ss[k].phils[Right(n, p)].Eating?)
  {
    RunInv(n, ss, ms, k);
    assert PhilOk(n, ss[k], p) && PhilOk(n, ss[k], Right(n, p));
  }

  /** Every put finds its chopstick taken by its sender; the complaint never runs. */
  lemma PutsAreExpected(n: nat, ss: seq<Ring>, ms: seq<Msg>, k: nat)
    requires IsRun(n, ss, ms) && k < |ss|
    ensures ss[k].complaints == 0
    ensures forall c: nat, p: nat :: Put(c, p) in ss[k].mail ==> c < |ss[k].sticks| && ss[k].sticks[c] == Some(p)
  {
    RunInv(n, ss, ms, k);
    forall c: nat, p: nat | Put(c, p) in ss[k].mail ensures c < |ss[k].sticks| && ss[k].sticks[c] == Some(p) {
      assert Addressed(n, Put(c, p)) && PhilOk(n, ss[k], p);
    }
  }

  /** Outside an attempt, a philosopher eats exactly if it has both chopsticks and is not giving one back. */
  lemma EatsExactlyWithBothSticks(n: nat, ss: seq<Ring>, ms: seq<Msg>, k: nat, p: nat)
    requires IsRun(n, ss, ms) && k < |ss| && p < n && p < |ss[k].phils| && !Awaiting(ss[k].phils[p])
    ensures Right(n, p) < |ss[k].sticks| && p < |ss[k].sticks|
    ensures var s, left, right := ss[k], Left(p), Right(n, p);
      s.phils[p].Eating? <==>
        && s.sticks[left] == Some(p) && s.sticks[right] == Some(p)
        && Put(left, p) !in s.mail && Put(right, p) !in s.mail
  {
    RunInv(n, ss, ms, k);
    assert PhilOk(n, ss[k], p);
  }

  // -- counting eaters --------------------------------------------------------

  ghost function Eaters(s: Ring): set<nat> {
    set p | p in Below(|s.phils|) && s.phils[p].Eating?
  }

  ghost function RightHands(n: nat, ps: set<nat>): set<nat> {
    set p | p in ps :: Right(n, p)
  }

  lemma {:induction false} RightHandsCard(n: nat, ps: set<nat>)
    requires forall p :: p in ps ==> p < n
    ensures |RightHands(n, ps)| == |ps|
    decreases |ps|
  {
    if ps != {} {
      var p :| p in ps;
      RightHandsCard(n, ps - {p});
      assert RightHands(n, ps) == RightHands(n, ps - {p}) + {Right(n, p)};
    }
  }

  /** At most half of the ring eats at any time. */
  lemma AtMostHalfEat(n: nat, ss: seq<Ring>, ms: seq<Msg>, k: nat)
    requires IsRun(n, ss, ms) && k < |ss|
    ensures 2 * |Eaters(ss[k])| <= n
  {
    RunInv(n, ss, ms, k);
    var s := ss[k];
    var e := Eaters(s);
    var r := RightHands(n, e);
    forall p | p in e ensures Right(n, p) !in e {
      NeighboursExclude(n, ss, ms, k, p);
    }
    RightHandsCard(n, e);
    assert |e + r| == |e| + |r|;
    BelowCard(n);
    SubsetCard(e + r, Below(n));
  }

  // -- progress ---------------------------------------------------------------

  /** Nobody is ever stuck: some message of each philosopher can be delivered right now. */
  lemma NeverStuck(n: nat, ss: seq<Ring>, ms: seq<Msg>, k: nat, p: nat) returns (m: Msg)
    requires IsRun(n, ss, ms) && k < |ss| && p < n
    ensures Enabled(n, ss[k], m) && m.phil == p && !m.Put?
  {
    RunInv(n, ss, ms, k);
    var s := ss[k];
    assert PhilOk(n, s, p);
    match s.phils[p]
    case Starting => m := Think(p);
    case Eating => m := Think(p);
    case Thinking => m := Eat(p);
    case _ =>
      var c := if Open(s, Left(p), p) > 0 then Left(p) else Right(n, p);
      m := if Take(c, p) in s.mail then Take(c, p)
           else Taken(c, p, Taken(c, p, true) in s.mail);
  }

  /** A philosopher holds exactly one eat or think token exactly when it awaits no answer. */
  lemma OneToken(n: nat, ss: seq<Ring>, ms: seq<Msg>, k: nat, p: nat)
    requires IsRun(n, ss, ms) && k < |ss| && p < n
    ensures p < |ss[k].phils|
    ensures ss[k].mail[Eat(p)] + ss[k].mail[Think(p)] == if Awaiting(ss[k].phils[p]) then 0 else 1
  {
    RunInv(n, ss, ms, k);
    assert PhilOk(n, ss[k], p);
  }

  /** Work left in the current attempt: two deliveries per take, one per answer. */
  ghost function Work(n: nat, s: Ring, p: nat): nat {
    StickWork(s, Left(p), p) + StickWork(s, Right(n, p), p)
  }

  ghost function StickWork(s: Ring, c: nat, p: nat): nat {
    2 * s.mail[Take(c, p)] + s.mail[Taken(c, p, true)] + s.mail[Taken(c, p, false)]
  }

  lemma TakeWork(n: nat, s: Ring, m: Msg)
    requires Seated(n, s) && m in s.mail && m.Take?
    ensures Work(n, Deliver(n, s, m), m.phil) == Work(n, s, m.phil) - 1
  {
    var p := m.phil;
    forall c: nat
      ensures StickWork(Deliver(n, s, m), c, p) == StickWork(s, c, p) - if c == m.stick then 1 else 0
    {
      AnswerMail(n, s, m, Take(c, p));
      AnswerMail(n, s, m, Taken(c, p, true));
      AnswerMail(n, s, m, Taken(c, p, false));
    }
  }

  /** Handling a take replaces it by one answer. */
  lemma AnswerMail(n: nat, s: Ring, m: Msg, x: Msg)
    requires Seated(n, s) && m in s.mail && m.Take?
    ensures Deliver(n, s, m).mail[x]
         == s.mail[x] - (if x == m then 1 else 0)
            + if x == Taken(m.stick, m.phil, s.sticks[m.stick].None?) then 1 else 0
  {
  }

  /** Reading an answer takes it out of flight and sends no take and no answer. */
  lemma ReplyMail(n: nat, s: Ring, m: Msg, x: Msg)
    requires Seated(n, s) && m in s.mail && m.Taken? && (x.Take? || x.Taken?)
    ensures Deliver(n, s, m).mail[x] == s.mail[x] - if x == m then 1 else 0
  {
  }

  lemma ReplyWork(n: nat, s: Ring, m: Msg)
    requires Seated(n, s) && m in s.mail && m.Taken?
    ensures Work(n, Deliver(n, s, m), m.phil) == Work(n, s, m.phil) - 1
  {
    var p := m.phil;
    forall c: nat
      ensures StickWork(Deliver(n, s, m), c, p) == StickWork(s, c, p) - if c == m.stick then 1 else 0
    {
      ReplyMail(n, s, m, Take(c, p));
      ReplyMail(n, s, m, Taken(c, p, true));
      ReplyMail(n, s, m, Taken(c, p, false));
    }
  }

  lemma OwnWork(n: nat, s: Ring, m: Msg)
    requires Ready(n, s, m) && Awaiting(s.phils[m.phil])
    ensures Work(n, Deliver(n, s, m), m.phil) == Work(n, s, m.phil) - if m.Put? then 0 else 1
  {
    match m
    case Take(_, _) => TakeWork(n, s, m);
    case Taken(_, _, _) => ReplyWork(n, s, m);
    case Put(_, _) => PutWork(n, s, m);
  }

  lemma PutWork(n: nat, s: Ring, m: Msg)
    requires Seated(n, s) && m in s.mail && m.Put?
    ensures Work(n, Deliver(n, s, m), m.phil) == Work(n, s, m.phil)
  {
    assert Deliver(n, s, m).mail == s.mail - multiset{m};
  }

  lemma OtherWork(n: nat, s: Ring, m: Msg, p: nat)
    requires Inv(n, s) && Enabled(n, s, m) && p < n && p != m.phil
    ensures Work(n, Deliver(n, s, m), p) == Work(n, s, p)
  {
    assert PhilOk(n, s, m.phil);
    OwnPhil(n, s, m);
    OtherPhil(n, s, m, p);
  }

  /** Takes delivered for `p` and answers delivered to `p` between two points of a run. */
  ghost function Deliveries(ms: seq<Msg>, i: nat, j: nat, p: nat): nat
    requires i <= j <= |ms|
    decreases j
  {
    if i == j then 0 else
    Deliveries(ms, i, j - 1, p) + if ms[j - 1].phil == p && !ms[j - 1].Put? then 1 else 0
  }

  lemma WorkLeft(n: nat, s: Ring, p: nat)
    requires Inv(n, s) && p < n
    ensures Work(n, s, p) <= 4 && (Work(n, s, p) > 0 <==> Awaiting(s.phils[p]))
  {
    assert PhilOk(n, s, p);
  }

  lemma WorkNext(n: nat, s: Ring, m: Msg, p: nat)
    requires Inv(n, s) && Enabled(n, s, m) && p < n && Awaiting(s.phils[p])
    ensures Work(n, Deliver(n, s, m), p) == Work(n, s, p) - if m.phil == p && !m.Put? then 1 else 0
  {
    assert PhilOk(n, s, p);
    if m.phil == p {
      OwnWork(n, s, m);
    } else {
      OtherWork(n, s, m, p);
    }
  }

  lemma RunWork(n: nat, ss: seq<Ring>, ms: seq<Msg>, j: nat, p: nat)
    requires IsRun(n, ss, ms) && j < |ms| && p < n && p < |ss[j].phils| && Awaiting(ss[j].phils[p])
    ensures Work(n, ss[j + 1], p) == Work(n, ss[j], p) - if ms[j].phil == p && !ms[j].Put? then 1 else 0
  {
    RunInv(n, ss, ms, j);
    WorkNext(n, ss[j], ms[j], p);
  }

  lemma RunWorkLeft(n: nat, ss: seq<Ring>, ms: seq<Msg>, j: nat, p: nat)
    requires IsRun(n, ss, ms) && j < |ss| && p < n
    ensures p < |ss[j].phils| && Work(n, ss[j], p) <= 4 && (Work(n, ss[j], p) > 0 <==> Awaiting(ss[j].phils[p]))
  {
    RunInv(n, ss, ms, j);
    WorkLeft(n, ss[j], p);
  }

  lemma {:induction false} WorkAddsUp(ms: seq<Msg>, work: seq<nat>, i: nat, j: nat, p: nat)
    requires i <= j <= |ms| && j < |work|
    requires forall x :: i <= x < j ==> work[x + 1] + (if ms[x].phil == p && !ms[x].Put? then 1 else 0) == work[x]
    ensures Deliveries(ms, i, j, p) + work[j] == work[i]
    decreases j
  {
    if i < j {
      WorkAddsUp(ms, work, i, j - 1, p);
      var x := j - 1;
      assert work[x + 1] + (if ms[x].phil == p && !ms[x].Put? then 1 else 0) == work[x];
    }
  }

  /**
   An attempt to eat takes at most four deliveries: as long as `p` has been
   awaiting answers since step `i`, its deliveries and the work left add up, and
   it is still awaiting exactly when work is left.
   */
  lemma AttemptsEnd(n: nat, ss: seq<Ring>, ms: seq<Msg>, i: nat, j: nat, p: nat)
    requires IsRun(n, ss, ms) && i <= j < |ss| && p < n
    requires forall x :: i <= x < j ==> p < |ss[x].phils| && Awaiting(ss[x].phils[p])
    ensures Deliveries(ms, i, j, p) + Work(n, ss[j], p) == Work(n, ss[i], p) <= 4
    ensures p < |ss[j].phils| && (Work(n, ss[j], p) > 0 <==> Awaiting(ss[j].phils[p]))
  {
    RunWorkLeft(n, ss, ms, i, p);
    RunWorkLeft(n, ss, ms, j, p);
    var work := seq(|ss|, x requires 0 <= x < |ss| => Work(n, ss[x], p));
    forall x | i <= x < j
      ensures work[x + 1] + (if ms[x].phil == p && !ms[x].Put? then 1 else 0) == work[x]
    {
      RunWork(n, ss, ms, x, p);
    }
    WorkAddsUp(ms, work, i, j, p);
  }
}
