/** The bounded queue between the transition hooks and the webhook: when it is full, the oldest event goes. */
module EventQueue {
  import opened Options

  datatype Transition = Transition(nzoID: string, from: string, to: string)

  const CAPACITY: nat := 256

  /** The channel, all events ever put into it and all events taken out, delivered or evicted. */
  datatype Queue = Queue(ch: seq<Transition>, sent: seq<Transition>, removed: seq<Transition>)

  /** A send that does not block. */
  function Offered(q: Queue, t: Transition): Queue {
    if |q.ch| < CAPACITY then q.(ch := q.ch + [t], sent := q.sent + [t]) else q
  }

  /** A receive, or an eviction. */
  function Taken(q: Queue): Queue {
    if q.ch == [] then q else q.(ch := q.ch[1..], removed := q.removed + [q.ch[0]])
  }

  /** Nothing is reordered, duplicated or lost track of, and the channel keeps its bound. */
  ghost predicate IsSound(q: Queue) {
    q.removed + q.ch == q.sent && |q.ch| <= CAPACITY
  }

  lemma OfferKeepsSound(q: Queue, t: Transition)
    requires IsSound(q)
    ensures IsSound(Offered(q, t))
  {
    assert q.removed + (q.ch + [t]) == q.removed + q.ch + [t];
  }

  lemma TakeKeepsSound(q: Queue)
    requires IsSound(q)
    ensures IsSound(Taken(q))
  {
    if q.ch != [] {
      assert q.removed + [q.ch[0]] + q.ch[1..] == q.removed + q.ch;
    }
  }

  class Emitter {
    var ch: seq<Transition>
    ghost var sent: seq<Transition>
    ghost var removed: seq<Transition>

    constructor ()
      ensures Contents() == Queue([], [], [])
    {
      ch, sent, removed := [], [], [];
    }

    ghost function Contents(): Queue
      reads this
    {
      Queue(ch, sent, removed)
    }

    method Offer(t: Transition) returns (ok: bool)
      modifies this
      ensures Contents() == Offered(old(Contents()), t)
      ensures ok <==> |old(ch)| < CAPACITY
    {
      ok := |ch| < CAPACITY;
      if ok {
        ch, sent := ch + [t], sent + [t];
      }
    }

    /** What Run's receive does when an event is waiting, and what makes room for a newer one. */
    method Take() returns (t: Option<Transition>)
      modifies this
      ensures Contents() == Taken(old(Contents()))
      ensures t == if old(ch) == [] then None else Some(old(ch)[0])
    {
      if ch == [] {
        return None;
      }
      t := Some(ch[0]);
      ch, removed := ch[1..], removed + [ch[0]];
    }

    /** With nobody in between, the event is always queued last, at the cost of the oldest if the queue is full. */
    method Enqueue(t: Transition)
      requires IsSound(Contents())
      modifies this
      ensures IsSound(Contents())
      ensures ch == (if |old(ch)| < 256 then old(ch) else old(ch)[1..]) + [t]
      ensures sent == old(sent) + [t]
      ensures removed == if |old(ch)| < 256 then old(removed) else old(removed) + [old(ch)[0]]
    {
      var ok := Offer(t);
      OfferKeepsSound(old(Contents()), t);
      if !ok {
        TakeKeepsSound(Contents());
        var _ := Take();
        OfferKeepsSound(Contents(), t);
        var _ := Offer(t);
      }
    }
  }

  // ----- Any number of producers and the consumer, one channel operation at a time -----

  /** Between the operations of an Enqueue whose first send found the channel full. */
  datatype Pc = Evicting(t: Transition) | Resending(t: Transition)

  /** `asked` are the events handed to Enqueue, `lost` those it gave up on. */
  datatype State = State(q: Queue, pcs: map<nat, Pc>, asked: seq<Transition>, lost: seq<Transition>)

  datatype Action =
    | Begin(producer: nat, t: Transition)
    | Evict(producer: nat)
    | Resend(producer: nat)
    | Receive

  predicate Enabled(s: State, a: Action) {
    match a
    case Begin(i, _) => i !in s.pcs
    case Evict(i) => i in s.pcs && s.pcs[i].Evicting?
    case Resend(i) => i in s.pcs && s.pcs[i].Resending?
    case Receive => s.q.ch != []
  }

  function Next(s: State, a: Action): State
    requires Enabled(s, a)
  {
    match a
    case Begin(i, t) =>
      s.(q := Offered(s.q, t), asked := s.asked + [t],
         pcs := if |s.q.ch| < CAPACITY then s.pcs else s.pcs[i := Evicting(t)])
    case Evict(i) => s.(q := Taken(s.q), pcs := s.pcs[i := Resending(s.pcs[i].t)])
    case Resend(i) =>
      var t := s.pcs[i].t;
      s.(q := Offered(s.q, t), pcs := s.pcs - {i}, lost := if |s.q.ch| < CAPACITY then s.lost else s.lost + [t])
    case Receive => s.(q := Taken(s.q))
  }

  const START := State(Queue([], [], []), map[], [], [])

  ghost predicate IsStep(s: State, a: Action, s': State) {
    Enabled(s, a) && s' == Next(s, a)
  }

  ghost predicate IsRun(states: seq<State>, actions: seq<Action>) {
    |states| == |actions| + 1 && states[0] == START &&
    forall k :: 0 <= k < |actions| ==> IsStep(states[k], actions[k], states[k + 1])
  }

  /**
    In every interleaving of producers and the consumer, the removed events followed by the waiting ones
    are the sent ones, in order, and never more than the capacity wait.
   */
  lemma {:induction false} QueueIsSound(states: seq<State>, actions: seq<Action>, n: nat)
    requires IsRun(states, actions) && n < |states|
    ensures IsSound(states[n].q)
    ensures states[n].q.removed + states[n].q.ch == states[n].q.sent && |states[n].q.ch| <= 256
  {
    if n > 0 {
      QueueIsSound(states, actions, n - 1);
      assert IsStep(states[n - 1], actions[n - 1], states[n]);
      hide IsSound, Offered, Taken;
      var s, a := states[n - 1], actions[n - 1];
      TakeKeepsSound(s.q);
      match a
      case Begin(_, t) => OfferKeepsSound(s.q, t);
      case Resend(i) => OfferKeepsSound(s.q, s.pcs[i].t);
      case _ =>
    }
  }

  // ----- When nothing is lost -----

  /** Somebody else puts an event into the channel, or tries to. */
  predicate Sends(a: Action) {
    a.Begin? || a.Resend?
  }

  lemma NothingSentNoGrowth(s: State, a: Action)
    requires Enabled(s, a) && !Sends(a)
    ensures |Next(s, a).q.ch| <= |s.q.ch|
  {
  }

  lemma {:induction false} StaysRoomy(states: seq<State>, actions: seq<Action>, m: nat, n: nat)
    requires IsRun(states, actions) && m <= n < |states| && |states[m].q.ch| < CAPACITY
    requires forall k :: m <= k < n ==> !Sends(actions[k])
    ensures |states[n].q.ch| < CAPACITY
    decreases n
  {
    hide Next;
    if m < n {
      StaysRoomy(states, actions, m, n - 1);
      assert IsStep(states[n - 1], actions[n - 1], states[n]);
      NothingSentNoGrowth(states[n - 1], actions[n - 1]);
    }
  }

  /**
    One Enqueue by itself: if between its eviction and its second send nobody else sends, its event is sent,
    whatever the consumer and other evictions do.
   */
  lemma UndisturbedEnqueueIsSent(states: seq<State>, actions: seq<Action>, producer: nat, m: nat, n: nat)
    requires IsRun(states, actions) && m < n < |actions|
    requires actions[m] == Evict(producer) && actions[n] == Resend(producer)
    requires forall k :: m < k < n ==> !Sends(actions[k])
    ensures producer in states[n].pcs
    ensures states[n + 1].q.sent == states[n].q.sent + [states[n].pcs[producer].t]
    ensures states[n + 1].lost == states[n].lost
  {
    QueueIsSound(states, actions, m);
    assert IsStep(states[m], actions[m], states[m + 1]);
    StaysRoomy(states, actions, m + 1, n);
    assert IsStep(states[n], actions[n], states[n + 1]);
  }

  /** No Enqueue begins while another is under way. */
  ghost predicate IsSerial(states: seq<State>, actions: seq<Action>)
    requires |states| == |actions| + 1
  {
    forall k :: 0 <= k < |actions| && actions[k].Begin? ==> states[k].pcs == map[]
  }

  /** The event on its way in, if any. */
  ghost predicate IsPending(pcs: map<nat, Pc>, pending: seq<Transition>) {
    (pcs == map[] && pending == []) || exists i :: i in pcs && pcs == map[i := pcs[i]] && pending == [pcs[i].t]
  }

  ghost predicate NothingLost(s: State, pending: seq<Transition>) {
    && s.lost == []
    && IsPending(s.pcs, pending)
    && (forall i :: i in s.pcs && s.pcs[i].Resending? ==> |s.q.ch| < CAPACITY)
    && |s.q.ch| <= CAPACITY
    && s.q.sent + pending == s.asked
  }

  lemma BeginLosesNothing(s: State, a: Action, pending: seq<Transition>) returns (pending': seq<Transition>)
    requires NothingLost(s, pending) && Enabled(s, a) && a.Begin? && s.pcs == map[]
    ensures NothingLost(Next(s, a), pending')
  {
    var s' := Next(s, a);
    assert pending == [];
    if |s.q.ch| < CAPACITY {
      pending' := [];
      assert s.q.sent + [a.t] + [] == s.q.sent + [] + [a.t];
    } else {
      pending' := [a.t];
      assert s'.pcs == map[a.producer := s'.pcs[a.producer]];
      assert s.q.sent + [a.t] == s.q.sent + [] + [a.t];
    }
  }

  lemma StepLosesNothing(s: State, a: Action, pending: seq<Transition>) returns (pending': seq<Transition>)
    requires NothingLost(s, pending) && Enabled(s, a) && !a.Begin?
    ensures NothingLost(Next(s, a), pending')
  {
    var s' := Next(s, a);
    if a.Receive? {
      pending' := pending;
    } else {
      assert s.pcs == map[a.producer := s.pcs[a.producer]] && pending == [s.pcs[a.producer].t];
      if a.Evict? {
        pending' := pending;
        assert s'.pcs == map[a.producer := s'.pcs[a.producer]];
      } else {
        pending' := [];
        assert s'.pcs == map[];
        assert s.q.sent + pending + [] == s.q.sent + pending;
      }
    }
  }

  /**
    With any number of producers and whatever the consumer does: if no Enqueue begins while another is under
    way, no event is lost on the way in. All events handed over have been sent, in order, but for the one
    being handed over, so only older events are ever evicted.
   */
  lemma {:induction false} SerialProducersLoseNothing(states: seq<State>, actions: seq<Action>, n: nat)
      returns (pending: seq<Transition>)
    requires IsRun(states, actions) && n < |states| && IsSerial(states, actions)
    ensures NothingLost(states[n], pending)
    ensures states[n].pcs == map[] ==> states[n].q.removed + states[n].q.ch == states[n].asked
  {
    QueueIsSound(states, actions, n);
    hide Next, Offered, Taken;
    if n == 0 {
      pending := [];
      assert START.q.sent + pending == START.asked;
    } else {
      pending := SerialProducersLoseNothing(states, actions, n - 1);
      var s, a := states[n - 1], actions[n - 1];
      assert IsStep(s, a, states[n]);
      if a.Begin? {
        pending := BeginLosesNothing(s, a, pending);
      } else {
        pending := StepLosesNothing(s, a, pending);
      }
    }
    assert states[n].q.sent + [] == states[n].q.sent;
  }

  ghost predicate IsAlone(actions: seq<Action>, producer: nat) {
    forall k :: 0 <= k < |actions| && actions[k].Begin? ==> actions[k].producer == producer
  }

  /** A single producer is serial. */
  lemma {:induction false} SingleProducerIsSerial(states: seq<State>, actions: seq<Action>, producer: nat, n: nat)
    requires IsRun(states, actions) && n < |states| && IsAlone(actions, producer)
    ensures states[n].pcs.Keys <= {producer}
    ensures forall k :: 0 <= k < n && actions[k].Begin? ==> states[k].pcs == map[]
  {
    if n > 0 {
      SingleProducerIsSerial(states, actions, producer, n - 1);
      assert IsStep(states[n - 1], actions[n - 1], states[n]);
      if actions[n - 1].Begin? {
        assert states[n - 1].pcs.Keys == {};
      }
    }
  }

  // ----- When an event can be lost -----

  lemma {:induction false} RunExtends(states: seq<State>, actions: seq<Action>, a: Action)
      returns (states': seq<State>, actions': seq<Action>)
    requires IsRun(states, actions) && Enabled(states[|actions|], a)
    ensures IsRun(states', actions') && actions' == actions + [a]
    ensures states' == states + [Next(states[|actions|], a)] && states'[|actions'|] == Next(states[|actions|], a)
  {
    hide Next, Enabled;
    states', actions' := states + [Next(states[|actions|], a)], actions + [a];
    forall k | 0 <= k < |actions'|
      ensures IsStep(states'[k], actions'[k], states'[k + 1])
    {
      if k < |actions| {
        assert IsStep(states[k], actions[k], states[k + 1]);
      }
    }
  }

  /** A run in which one producer after the other fills the channel undisturbed. */
  lemma {:induction false} FillingRun(t: Transition, n: nat) returns (states: seq<State>, actions: seq<Action>)
    requires n <= CAPACITY
    ensures IsRun(states, actions) && |actions| == n && (forall k :: 0 <= k < n ==> actions[k] == Begin(0, t))
    ensures var s := states[n]; |s.q.ch| == n && s.pcs == map[] && s.lost == []
    decreases n
  {
    if n == 0 {
      states, actions := [START], [];
    } else {
      states, actions := FillingRun(t, n - 1);
      states, actions := RunExtends(states, actions, Begin(0, t));
    }
  }

  /**
    From any full channel a run can reach, one Enqueue that begins while another is under way is enough to
    lose an event: the newer takes the place the other made by evicting the oldest. Everything before,
    and every other Enqueue, may have been serial.
   */
  lemma OneOverlapLoses(states: seq<State>, actions: seq<Action>, a: Transition, b: Transition)
      returns (states': seq<State>, actions': seq<Action>)
    requires IsRun(states, actions)
    requires var s := states[|actions|]; |s.q.ch| == 256 && s.pcs == map[]
    ensures IsRun(states', actions')
    ensures actions' == actions + [Begin(0, a), Evict(0), Begin(1, b), Resend(0)]
    ensures var s, s' := states[|actions|], states'[|actions'|];
            s'.lost == s.lost + [a] && s'.q.ch == s.q.ch[1..] + [b] && s'.pcs == map[]
  {
    var s := states[|actions|];
    states', actions' := RunExtends(states, actions, Begin(0, a));
    states', actions' := RunExtends(states', actions', Evict(0));
    states', actions' := RunExtends(states', actions', Begin(1, b));
    states', actions' := RunExtends(states', actions', Resend(0));
    assert actions' == actions + [Begin(0, a), Evict(0), Begin(1, b), Resend(0)];
    assert states'[|actions'|].pcs == map[];
  }

  /** Such a run from the very beginning: of 258 events, all handed over one after the other but two, one is lost. */
  lemma OverlapCanLose(t: Transition, a: Transition, b: Transition) returns (states: seq<State>, actions: seq<Action>)
    ensures IsRun(states, actions) && states[|actions|].lost == [a]
    ensures forall k :: 0 <= k < |actions| && actions[k].Begin? && k != CAPACITY + 2 ==> states[k].pcs == map[]
  {
    var filled, begins := FillingRun(t, CAPACITY);
    FillingIsSerial(filled, begins, t, CAPACITY);
    states, actions := OneOverlapLoses(filled, begins, a, b);
    FirstStatesAgree(filled, begins, states, actions, CAPACITY);
    forall k | 0 <= k < |actions| && actions[k].Begin? && k != CAPACITY + 2
      ensures states[k].pcs == map[]
    {
      if k < CAPACITY {
        FirstStatesAgree(filled, begins, states, actions, k);
      }
    }
  }

  lemma {:induction false} FillingIsSerial(states: seq<State>, actions: seq<Action>, t: Transition, n: nat)
    requires IsRun(states, actions) && n <= |actions| <= CAPACITY
    requires forall k :: 0 <= k < |actions| ==> actions[k] == Begin(0, t)
    ensures forall k :: 0 <= k <= n ==> states[k].pcs == map[] && |states[k].q.ch| == k
  {
    if n > 0 {
      FillingIsSerial(states, actions, t, n - 1);
      assert IsStep(states[n - 1], actions[n - 1], states[n]);
    }
  }

  /** Runs with the same actions go through the same states. */
  lemma {:induction false} FirstStatesAgree(states: seq<State>, actions: seq<Action>, states': seq<State>,
                                            actions': seq<Action>, n: nat)
    requires IsRun(states, actions) && IsRun(states', actions') && n <= |actions| && actions <= actions'
    ensures states[n] == states'[n]
  {
    hide Next, Enabled;
    if n > 0 {
      FirstStatesAgree(states, actions, states', actions', n - 1);
      assert IsStep(states[n - 1], actions[n - 1], states[n]);
      assert IsStep(states'[n - 1], actions'[n - 1], states'[n]);
    }
  }
}
