/** What every run of a Subscriber keeps: the bound, the newest messages, the wake-ups, the order, the shutdown. */
module SubscriberProofs {
  import opened SubscriberQueue

  predicate AboutToTake(p: Spinner) { p.WantQueue? || p.Waiting? || p.Woken? }

  /** The dummy has been pushed. */
  predicate Shutting(c: Core) { c.destructor.Joining? || c.destructor.Destroyed? }

  predicate AllItems(q: seq<Entry>) { forall i :: 0 <= i < |q| ==> q[i].Item? }

  predicate CoreInv(c: Core) {
    && |c.queue| <= Limit(c.queueSize) + (if c.queue != [] && c.queue[|c.queue| - 1].Dummy? then 2 else 1)
    && (!Shutting(c) ==> AllItems(c.queue))
    && (!c.destructor.Alive? ==> !c.connected)
    && (Shutting(c) ==> !c.receiver.Receiving?)
    && (c.spinner.Waiting? ==> (c.queue != [] <==> c.signaled))
    && (c.spinner.Holding? && c.spinner.entry.Dummy? ==> !c.connected)
    && (c.spinner.InCallback? ==> c.spinner.entry.Item?)
    && (c.destructor.Joining? ==> !c.spinner.NotSpinning? && (AboutToTake(c.spinner) ==> c.queue != []))
    && (c.destructor.Destroyed? ==> c.spinner.NotSpinning? || c.spinner.Stopped?)
  }

  lemma PushedKeeps(c: Core, e: Entry)
    requires CoreInv(c) && c.receiver.Receiving? && e.Item?
    ensures CoreInv(Pushed(c, e))
    ensures |Trimmed(c.queue, Limit(c.queueSize))| + 1 >= |c.queue|
  {
    var q := Trimmed(c.queue, Limit(c.queueSize)) + [e];
    assert AllItems(q) && q[|q| - 1] == e;
  }

  lemma TakeKeeps(c: Core)
    requires CoreInv(c) && (c.spinner.WantQueue? || c.spinner.Woken?)
    ensures CoreInv(TakeOrWait(c))
  {
    if c.queue != [] { assert AllItems(c.queue) ==> AllItems(c.queue[1..]); }
  }

  lemma SpunKeeps(c: Core)
    requires CoreInv(c) && Spun(c).Some?
    ensures CoreInv(Spun(c).value)
  {
    if c.spinner.WantQueue? || c.spinner.Woken? { TakeKeeps(c); }
  }

  lemma JoinedKeeps(c: Core)
    requires CoreInv(c) && CanJoinReceiver(c)
    ensures CoreInv(JoinedReceiver(c))
  {
  }

  lemma CoreKeeps(s: State, ev: Event)
    requires CoreInv(s.core) && Allowed(s, ev)
    requires ev.Receive? ==> s.feeds[ev.uri].stream[0].Item?
    ensures CoreInv(Next(s, ev).core)
  {
    match ev
    case Receive(u) => PushedKeeps(s.core, s.feeds[u].stream[0]);
    case Spin => SpunKeeps(s.core);
    case JoinReceiver => JoinedKeeps(s.core);
    case _ =>
  }

  /** The queue is what was received and has not left, and the dummy behind it once it is pushed. */
  predicate QueueInv(s: State) {
    && s.gone <= |s.received|
    && AllItems(s.received)
    && (s.core.queue == s.received[s.gone..] || (Shutting(s.core) && s.core.queue == s.received[s.gone..] + [Dummy]))
    && (forall d :: d in s.drops ==> d.0 + Limit(s.core.queueSize) + 1 <= d.1)
  }

  lemma ReceiveQueue(s: State, u: PublisherUri)
    requires CoreInv(s.core) && QueueInv(s) && Allowed(s, Receive(u)) && s.feeds[u].stream[0].Item?
    ensures QueueInv(ReceiveStep(s, u))
    ensures s.gone <= ReceiveStep(s, u).gone <= s.gone + 1
  {
    var c, limit := s.core, Limit(s.core.queueSize);
    var e, s' := s.feeds[u].stream[0], ReceiveStep(s, u);
    assert !Shutting(c);
    assert s'.core.queue == Trimmed(c.queue, limit) + [e];
    assert Trimmed(c.queue, limit) == s.received[s'.gone..];
    assert s'.received[s'.gone..] == s.received[s'.gone..] + [e];
  }

  /** Taking the front entry shortens the suffix by one, or takes the dummy behind it. */
  lemma TakeSuffix(queue: seq<Entry>, received: seq<Entry>, gone: nat)
    requires queue != [] && gone <= |received| && (queue == received[gone..] || queue == received[gone..] + [Dummy])
    ensures gone < |received| ==> queue[0] == received[gone]
    ensures gone < |received| && queue == received[gone..] ==> queue[1..] == received[gone + 1..]
    ensures gone < |received| && queue == received[gone..] + [Dummy] ==> queue[1..] == received[gone + 1..] + [Dummy]
    ensures gone == |received| ==> queue[0] == Dummy && queue[1..] == received[gone..]
  {
  }

  lemma SpinQueue(s: State)
    requires CoreInv(s.core) && QueueInv(s) && Spun(s.core).Some?
    ensures QueueInv(SpinStep(s))
  {
    var c := s.core;
    if (c.spinner.WantQueue? || c.spinner.Woken?) && c.queue != [] { TakeSuffix(c.queue, s.received, s.gone); }
  }

  lemma QueueKeeps(s: State, ev: Event)
    requires CoreInv(s.core) && QueueInv(s) && Allowed(s, ev)
    requires ev.Receive? ==> s.feeds[ev.uri].stream[0].Item?
    ensures QueueInv(Next(s, ev))
  {
    match ev
    case Receive(u) => ReceiveQueue(s, u);
    case Spin => SpinQueue(s);
    case JoinReceiver =>
    case _ =>
  }

  /** What the spinning thread holds, and what the callback got, in terms of positions among the received. */
  predicate CallbackInv(s: State) {
    var sp := s.core.spinner;
    && (forall i, j :: 0 <= i < j < |s.delivered| ==> s.delivered[i] < s.delivered[j])
    && (forall i :: 0 <= i < |s.delivered| ==> s.delivered[i] < s.gone)
    && ((sp.Holding? || sp.InCallback?) && sp.entry.Item? ==>
          s.holding < s.gone <= |s.received| && sp.entry == s.received[s.holding])
    && (sp.Holding? && sp.entry.Item? ==> forall i :: 0 <= i < |s.delivered| ==> s.delivered[i] < s.holding)
    && (sp.InCallback? ==> |s.delivered| > 0 && s.delivered[|s.delivered| - 1] == s.holding)
    && s.lastPops <= (if s.core.connected || sp.NotSpinning? || AboutToTake(sp) then 0 else 1)
  }

  lemma ReceiveCallback(s: State, u: PublisherUri)
    requires CoreInv(s.core) && QueueInv(s) && CallbackInv(s) && Allowed(s, Receive(u)) && s.feeds[u].stream[0].Item?
    ensures CallbackInv(ReceiveStep(s, u))
  {
    ReceiveQueue(s, u);
  }

  /** The steps that neither receive nor take. */
  lemma OtherCallback(s: State, ev: Event)
    requires CallbackInv(s) && Allowed(s, ev) && !ev.Receive? && !ev.Spin?
    ensures CallbackInv(Next(s, ev))
  {
  }

  lemma CallbackKeeps(s: State, ev: Event)
    requires CoreInv(s.core) && QueueInv(s) && CallbackInv(s) && Allowed(s, ev)
    requires ev.Receive? ==> s.feeds[ev.uri].stream[0].Item?
    ensures CallbackInv(Next(s, ev))
  {
    if ev.Receive? { ReceiveCallback(s, ev.uri); }
    else if ev.Spin? { SpinCallback(s); }
    else { OtherCallback(s, ev); }
  }

  lemma TakeCallback(s: State)
    requires CoreInv(s.core) && QueueInv(s) && CallbackInv(s)
    requires (s.core.spinner.WantQueue? || s.core.spinner.Woken?) && s.core.queue != []
    ensures CallbackInv(SpinStep(s))
  {
    assert s.core.queue[0].Item? ==> s.gone < |s.received| && s.core.queue[0] == s.received[s.gone];
  }

  lemma OfferCallback(s: State)
    requires CoreInv(s.core) && QueueInv(s) && CallbackInv(s) && s.core.spinner.Holding?
    ensures CallbackInv(SpinStep(s))
  {
  }

  lemma SpinCallback(s: State)
    requires CoreInv(s.core) && QueueInv(s) && CallbackInv(s) && Spun(s.core).Some?
    ensures CallbackInv(SpinStep(s))
  {
    var c := s.core;
    if c.spinner.Holding? { OfferCallback(s); }
    else if (c.spinner.WantQueue? || c.spinner.Woken?) && c.queue != [] { TakeCallback(s); }
  }

  // ---------- The feeds ----------

  /** An entry is what its publisher published under its number, after accepting the connection and before erasing it. */
  predicate Genuine(s: State, e: Entry) {
    && e.Item? && e.publisher in s.feeds
    && var f := s.feeds[e.publisher];
       && f.accepted.Some? && f.accepted.value <= e.index < |f.published| && f.published[e.index] == e.value
       && (f.closed.Some? ==> e.index < f.closed.value)
  }

  predicate FeedInv(s: State) {
    && (forall i :: 0 <= i < |s.received| ==> Genuine(s, s.received[i]))
    && (forall u, k :: u in s.feeds && 0 <= k < |s.feeds[u].stream| ==>
          Genuine(s, s.feeds[u].stream[k]) && s.feeds[u].stream[k].publisher == u)
    && (forall u :: u in s.feeds && s.feeds[u].accepted.Some? ==> s.feeds[u].accepted.value <= |s.feeds[u].published|)
  }

  /** Two messages, the first before the second if one publisher sent both. */
  predicate Before(e: Entry, f: Entry) { e.Item? && f.Item? && (e.publisher == f.publisher ==> e.index < f.index) }

  /** Per publisher the numbers increase through what was received and on through the stream. */
  predicate OrderInv(s: State) {
    && (forall i, j :: 0 <= i < j < |s.received| ==> Before(s.received[i], s.received[j]))
    && (forall u, i, k :: u in s.feeds && 0 <= i < |s.received| && 0 <= k < |s.feeds[u].stream| ==>
          Before(s.received[i], s.feeds[u].stream[k]))
    && (forall u, j, k :: u in s.feeds && 0 <= j < k < |s.feeds[u].stream| ==>
          Before(s.feeds[u].stream[j], s.feeds[u].stream[k]))
  }

  /** What receiving leaves in the streams. */
  lemma ReceiveFrame(s: State, u: PublisherUri, w: PublisherUri, k: nat)
    requires Allowed(s, Receive(u)) && w in s.feeds && k < |ReceiveStep(s, u).feeds[w].stream|
    ensures var j := if w == u then k + 1 else k;
      j < |s.feeds[w].stream| && ReceiveStep(s, u).feeds[w].stream[k] == s.feeds[w].stream[j]
  {
  }

  lemma ReceiveGenuine(s: State, u: PublisherUri)
    requires FeedInv(s) && Allowed(s, Receive(u))
    ensures FeedInv(ReceiveStep(s, u))
  {
    var s' := ReceiveStep(s, u);
    assert forall e :: Genuine(s, e) ==> Genuine(s', e);
    forall w, k | w in s'.feeds && 0 <= k < |s'.feeds[w].stream|
      ensures Genuine(s', s'.feeds[w].stream[k]) && s'.feeds[w].stream[k].publisher == w
    {
      ReceiveFrame(s, u, w, k);
    }
  }

  lemma ReceiveOrder(s: State, u: PublisherUri)
    requires OrderInv(s) && FeedInv(s) && Allowed(s, Receive(u))
    ensures OrderInv(ReceiveStep(s, u))
  {
    var s' := ReceiveStep(s, u);
    forall w, i, k | w in s'.feeds && 0 <= i < |s'.received| && 0 <= k < |s'.feeds[w].stream|
      ensures Before(s'.received[i], s'.feeds[w].stream[k])
    {
      ReceiveFrame(s, u, w, k);
      if i == |s.received| && w != u { assert s.feeds[w].stream[k].publisher == w && s.feeds[u].stream[0].publisher == u; }
    }
    forall w, j, k | w in s'.feeds && 0 <= j < k < |s'.feeds[w].stream|
      ensures Before(s'.feeds[w].stream[j], s'.feeds[w].stream[k])
    {
      ReceiveFrame(s, u, w, j);
      ReceiveFrame(s, u, w, k);
    }
  }

  /** A new message is genuine and has a higher number than all before it. */
  lemma PublishedNext(s: State, u: PublisherUri, v: string)
    requires FeedInv(s) && Allowed(s, Publish(u, v))
    ensures forall e :: Genuine(s, e) ==>
      Genuine(Next(s, Publish(u, v)), e) && Before(e, Item(u, |s.feeds[u].published|, v))
    ensures s.feeds[u].accepted.Some? && s.feeds[u].closed.None? ==>
      Genuine(Next(s, Publish(u, v)), Item(u, |s.feeds[u].published|, v))
  {
  }

  /** What publishing changes in the feeds. */
  lemma PublishFrame(s: State, u: PublisherUri, v: string, w: PublisherUri, k: nat)
    requires Allowed(s, Publish(u, v)) && w in s.feeds
    ensures var f, f' := s.feeds[w], Next(s, Publish(u, v)).feeds[w];
      && |f.stream| <= |f'.stream|
      && (k < |f.stream| ==> f'.stream[k] == f.stream[k])
      && (|f.stream| <= k < |f'.stream| ==> w == u && f.accepted.Some? && f.closed.None? && k == |f.stream| && f'.stream[k] == Item(u, |f.published|, v))
  {
  }

  lemma PublishGenuine(s: State, u: PublisherUri, v: string)
    requires FeedInv(s) && Allowed(s, Publish(u, v))
    ensures FeedInv(Next(s, Publish(u, v)))
  {
    PublishedNext(s, u, v);
    var s' := Next(s, Publish(u, v));
    forall w, k | w in s'.feeds && 0 <= k < |s'.feeds[w].stream|
      ensures Genuine(s', s'.feeds[w].stream[k]) && s'.feeds[w].stream[k].publisher == w
    {
      PublishFrame(s, u, v, w, k);
    }
  }

  lemma PublishOrder(s: State, u: PublisherUri, v: string)
    requires FeedInv(s) && OrderInv(s) && Allowed(s, Publish(u, v))
    ensures OrderInv(Next(s, Publish(u, v)))
  {
    PublishedNext(s, u, v);
    var s' := Next(s, Publish(u, v));
    forall w, i, k | w in s'.feeds && 0 <= i < |s'.received| && 0 <= k < |s'.feeds[w].stream|
      ensures Before(s'.received[i], s'.feeds[w].stream[k])
    {
      PublishFrame(s, u, v, w, k);
    }
    forall w, j, k | w in s'.feeds && 0 <= j < k < |s'.feeds[w].stream|
      ensures Before(s'.feeds[w].stream[j], s'.feeds[w].stream[k])
    {
      PublishFrame(s, u, v, w, j);
      PublishFrame(s, u, v, w, k);
    }
  }

  /** A change of one feed that keeps its stream keeps what is genuine, and the order. */
  lemma FeedEntryGenuine(s: State, ev: Event)
    requires FeedInv(s) && Allowed(s, ev) && (ev.NewPublisher? || ev.Accept? || ev.HangUp?)
    ensures FeedInv(Next(s, ev))
    ensures forall w :: w in Next(s, ev).feeds ==>
      Next(s, ev).feeds[w].stream == if w in s.feeds then s.feeds[w].stream else []
  {
    var s' := Next(s, ev);
    forall e | Genuine(s, e) ensures Genuine(s', e) {}
  }

  lemma FeedEntryKeeps(s: State, ev: Event)
    requires FeedInv(s) && OrderInv(s) && Allowed(s, ev) && (ev.NewPublisher? || ev.Accept? || ev.HangUp?)
    ensures FeedInv(Next(s, ev)) && OrderInv(Next(s, ev))
  {
    FeedEntryGenuine(s, ev);
    assert Next(s, ev).received == s.received;
  }

  lemma FeedsKeep(s: State, ev: Event)
    requires FeedInv(s) && OrderInv(s) && Allowed(s, ev)
    ensures FeedInv(Next(s, ev)) && OrderInv(Next(s, ev))
  {
    if ev.Receive? { ReceiveGenuine(s, ev.uri); ReceiveOrder(s, ev.uri); }
    else if ev.Publish? { PublishGenuine(s, ev.uri, ev.value); PublishOrder(s, ev.uri, ev.value); }
    else if ev.NewPublisher? || ev.Accept? || ev.HangUp? { FeedEntryKeeps(s, ev); }
    else {
      var s' := Next(s, ev);
      assert s'.received == s.received && s'.feeds == s.feeds;
      forall e | Genuine(s, e) ensures Genuine(s', e) {}
    }
  }

  /** Message `k` of an accepted connection that the publisher still holds has arrived or is on its way. */
  predicate Kept(s: State, u: PublisherUri, k: nat) {
    u in s.feeds && s.feeds[u].accepted.Some? && s.feeds[u].closed.None? && s.feeds[u].accepted.value <= k < |s.feeds[u].published| ==>
      var e := Item(u, k, s.feeds[u].published[k]); e in s.received || e in s.feeds[u].stream
  }

  predicate KeptInv(s: State) {
    forall u, k :: u in s.feeds && 0 <= k < |s.feeds[u].published| ==> Kept(s, u, k)
  }

  lemma KeptAt(s: State, ev: Event, u: PublisherUri, k: nat)
    requires Allowed(s, ev) && (u in s.feeds && k < |s.feeds[u].published| ==> Kept(s, u, k))
    ensures Kept(Next(s, ev), u, k)
  {
    var s' := Next(s, ev);
    if ev.Receive? && ev.uri == u {
      var f := s.feeds[u];
      assert f.stream == [f.stream[0]] + s'.feeds[u].stream;
    } else if ev.Publish? && ev.uri == u && s.feeds[u].accepted.Some? && s.feeds[u].closed.None? {
      assert s'.feeds[u].stream[|s.feeds[u].stream|] == Item(u, |s.feeds[u].published|, ev.value);
      assert forall e :: e in s.feeds[u].stream ==> e in s'.feeds[u].stream;
    }
  }

  // ---------- What becomes of a message that has left the queue ----------

  /** The callback got it, or some push dropped it, or the spinning thread has just taken it. */
  predicate Accounted(s: State, i: nat) {
    || i in s.delivered
    || (exists j :: 0 <= j < |s.drops| && s.drops[j].0 == i)
    || (s.core.spinner.Holding? && s.core.spinner.entry.Item? && s.holding == i)
  }

  predicate AccountInv(s: State) {
    && (s.core.connected ==> forall i :: 0 <= i < s.gone ==> Accounted(s, i))
    && (s.core.spinner.Stopped? ==> !s.core.connected)
  }

  lemma ReceiveAccounts(s: State, u: PublisherUri, i: nat)
    requires Allowed(s, Receive(u)) && (i < s.gone ==> Accounted(s, i)) && i < ReceiveStep(s, u).gone
    ensures Accounted(ReceiveStep(s, u), i)
  {
    var s' := ReceiveStep(s, u);
    if i < s.gone {
      assert forall j :: 0 <= j < |s.drops| ==> s'.drops[j] == s.drops[j];
    } else {
      assert s'.drops[|s.drops| + (i - s.gone)].0 == i;
    }
  }

  lemma SpinAccounts(s: State, i: nat)
    requires CoreInv(s.core) && Spun(s.core).Some? && s.core.connected
    requires (i < s.gone ==> Accounted(s, i)) && i < SpinStep(s).gone
    ensures Accounted(SpinStep(s), i)
  {
    var s' := SpinStep(s);
    assert s'.drops == s.drops;
    if s.core.spinner.Holding? && s.core.spinner.entry.Item? { assert s'.delivered[|s.delivered|] == s.holding; }
  }

  lemma AccountKeeps(s: State, ev: Event)
    requires CoreInv(s.core) && AccountInv(s) && Allowed(s, ev)
    ensures AccountInv(Next(s, ev))
  {
    var s' := Next(s, ev);
    if s'.core.connected {
      forall i | 0 <= i < s'.gone ensures Accounted(s', i) {
        if ev.Receive? { ReceiveAccounts(s, ev.uri, i); }
        else if ev.Spin? { SpinAccounts(s, i); }
        else { assert Accounted(s, i); }
      }
    }
  }

  // ---------- Every run ----------

  predicate Inv(s: State) {
    && CoreInv(s.core) && QueueInv(s) && CallbackInv(s) && AccountInv(s)
    && FeedInv(s) && OrderInv(s) && KeptInv(s)
  }

  lemma StepKeeps(s: State, ev: Event)
    requires Inv(s) && Allowed(s, ev)
    ensures Inv(Next(s, ev))
  {
    if ev.Receive? { assert Genuine(s, s.feeds[ev.uri].stream[0]); }
    CoreKeeps(s, ev);
    QueueKeeps(s, ev);
    CallbackKeeps(s, ev);
    AccountKeeps(s, ev);
    FeedsKeep(s, ev);
    var s' := Next(s, ev);
    forall u, k | u in s'.feeds && 0 <= k < |s'.feeds[u].published| ensures Kept(s', u, k) { KeptAt(s, ev, u, k); }
  }

  lemma SizeKept(s: State, ev: Event)
    requires Allowed(s, ev)
    ensures Next(s, ev).core.queueSize == s.core.queueSize
  {
  }

  lemma {:induction false} InvAlways(s: State, events: seq<Event>)
    requires Inv(s)
    ensures Inv(Run(s, events)) && Run(s, events).core.queueSize == s.core.queueSize
    decreases |events|
  {
    if events != [] {
      if Allowed(s, events[0]) {
        StepKeeps(s, events[0]);
        SizeKept(s, events[0]);
        InvAlways(Next(s, events[0]), events[1..]);
      } else {
        InvAlways(s, events[1..]);
      }
    }
  }

  lemma Reached(queueSize: nat, events: seq<Event>)
    ensures Inv(Run(Start(queueSize), events)) && Run(Start(queueSize), events).core.queueSize == queueSize
  {
    InvAlways(Start(queueSize), events);
  }

  /** The real bound: two more than the queue size, except where the 32-bit sum wraps to zero. */
  function Bound(queueSize: nat): nat
    requires queueSize < UINT32_LIMIT
  {
    if queueSize == UINT32_LIMIT - 1 then 1 else queueSize + 2
  }

  lemma QueueBound(s: State)
    requires CoreInv(s.core) && QueueInv(s) && s.core.queueSize < UINT32_LIMIT
    ensures |s.received| - s.gone <= Bound(s.core.queueSize)
    ensures forall d :: d in s.drops ==> d.1 - d.0 >= Bound(s.core.queueSize)
  {
  }

  lemma DropsOne(s: State, u: PublisherUri)
    requires Inv(s) && Allowed(s, Receive(u))
    ensures |ReceiveStep(s, u).drops| <= |s.drops| + 1
  {
    assert Genuine(s, s.feeds[u].stream[0]);
    PushedKeeps(s.core, s.feeds[u].stream[0]);
  }

  /**
   * Bounded queue, newest kept: apart from the dummy the queue is a suffix of everything received, no longer than the
   * bound; a push drops at most one message, and a message is dropped only by a push that makes at least as many newer
   * messages as the bound.
   */
  lemma NewestKept(queueSize: nat, events: seq<Event>)
    requires queueSize < UINT32_LIMIT
    ensures var s := Run(Start(queueSize), events);
      && s.gone <= |s.received| && |s.received| - s.gone <= Bound(queueSize)
      && (s.core.queue == s.received[s.gone..] || (Shutting(s.core) && s.core.queue == s.received[s.gone..] + [Dummy]))
      && (forall d :: d in s.drops ==> d.1 - d.0 >= Bound(queueSize))
      && (forall u :: Allowed(s, Receive(u)) ==> |ReceiveStep(s, u).drops| <= |s.drops| + 1)
  {
    Reached(queueSize, events);
    var s := Run(Start(queueSize), events);
    QueueBound(s);
    forall u | Allowed(s, Receive(u)) ensures |ReceiveStep(s, u).drops| <= |s.drops| + 1 { DropsOne(s, u); }
  }

  /**
   * End to end: the callback gets, from each publisher, messages it published after accepting the connection and
   * before erasing it, in the order published and none twice.
   */
  lemma DeliveredInOrder(queueSize: nat, events: seq<Event>)
    ensures var s := Run(Start(queueSize), events);
      && (forall i :: 0 <= i < |s.delivered| ==> s.delivered[i] < |s.received| && Genuine(s, s.received[s.delivered[i]]))
      && (forall i, j :: 0 <= i < j < |s.delivered| ==>
            s.delivered[i] < s.delivered[j] && Before(s.received[s.delivered[i]], s.received[s.delivered[j]]))
  {
    Reached(queueSize, events);
  }

  /**
   * Nothing is skipped on the way: of what a publisher published since it accepted the connection, each message has been
   * received or is still in the stream, as long as the publisher keeps the connection.
   */
  lemma NothingSkipped(queueSize: nat, events: seq<Event>, u: PublisherUri, k: nat)
    requires var s := Run(Start(queueSize), events);
      u in s.feeds && var f := s.feeds[u]; f.accepted.Some? && f.closed.None? && f.accepted.value <= k < |f.published|
    ensures var s := Run(Start(queueSize), events); var f := s.feeds[u];
      Item(u, k, f.published[k]) in s.received || Item(u, k, f.published[k]) in f.stream
  {
    Reached(queueSize, events);
    assert Kept(Run(Start(queueSize), events), u, k);
  }

  /**
   * As long as the subscriber is connected every message that has left the queue went to the callback, or was dropped by a
   * push, or has just been taken by the spinning thread; and that thread has not stopped.
   */
  lemma TakenIsDelivered(queueSize: nat, events: seq<Event>, i: nat)
    requires var s := Run(Start(queueSize), events); s.core.connected && i < s.gone
    ensures var s := Run(Start(queueSize), events);
      && !s.core.spinner.Stopped?
      && (|| i in s.delivered
          || (exists j :: 0 <= j < |s.drops| && s.drops[j].0 == i)
          || (s.core.spinner.Holding? && i < |s.received| && s.core.spinner.entry == s.received[i]))
  {
    Reached(queueSize, events);
    assert Accounted(Run(Start(queueSize), events), i);
  }

  function Spins(n: nat): seq<Event> { if n == 0 then [] else [Spin] + Spins(n - 1) }

  /** How many steps the spinning thread is from its next callback. */
  function CallbackRank(p: Spinner): nat {
    if p.InCallback? then 5 else if p.LoopHead? then 4 else if p.Waiting? then 3 else if p.WantQueue? || p.Woken? then 2 else 1
  }

  /** The message taken goes to the callback. */
  lemma SpinDelivers(s: State)
    requires CoreInv(s.core) && s.core.connected && s.core.spinner.Holding? && s.core.spinner.entry.Item?
    ensures Allowed(s, Spin) && Next(s, Spin).delivered == s.delivered + [s.holding]
  {
  }

  /** The thread is about to take a message, or has taken one. */
  predicate HasWork(c: Core) { c.queue != [] || (c.spinner.Holding? && c.spinner.entry.Item?) }

  lemma SpinAdvances(s: State)
    requires CoreInv(s.core) && s.core.connected && !s.core.spinner.NotSpinning? && !s.core.spinner.Stopped?
    requires s.core.queue != [] && !s.core.spinner.Holding?
    ensures Allowed(s, Spin)
    ensures var s' := Next(s, Spin);
      && s'.core.connected && !s'.core.spinner.NotSpinning? && !s'.core.spinner.Stopped? && HasWork(s'.core)
      && s'.delivered == s.delivered && CallbackRank(s'.core.spinner) < CallbackRank(s.core.spinner)
  {
    assert s.core.queue[0].Item?;
  }

  lemma SpinHead(s: State, k: nat)
    requires Allowed(s, Spin)
    ensures Run(s, Spins(k + 1)) == Run(Next(s, Spin), Spins(k))
  {
    assert Spins(k + 1)[1..] == Spins(k);
  }

  /** After so many steps of the spinning thread one more message has gone to the callback. */
  predicate Delivers(s: State, n: nat) {
    var d := Run(s, Spins(n)).delivered; s.delivered <= d && |d| == |s.delivered| + 1
  }

  lemma DeliversNow(s: State)
    requires CoreInv(s.core) && s.core.connected && s.core.spinner.Holding?
    ensures Delivers(s, 1)
  {
    SpinDelivers(s);
    SpinHead(s, 0);
  }

  lemma DeliversLater(s: State, k: nat)
    requires Allowed(s, Spin) && Next(s, Spin).delivered == s.delivered && Delivers(Next(s, Spin), k)
    ensures Delivers(s, k + 1)
  {
    SpinHead(s, k);
  }

  lemma {:induction false} SpinsToRank(s: State) returns (n: nat)
    requires CoreInv(s.core) && s.core.connected && !s.core.spinner.NotSpinning? && !s.core.spinner.Stopped?
    requires HasWork(s.core)
    ensures n <= CallbackRank(s.core.spinner) && Delivers(s, n)
    decreases CallbackRank(s.core.spinner)
  {
    if s.core.spinner.Holding? {
      n := 1;
      DeliversNow(s);
    } else {
      SpinAdvances(s);
      CoreKeeps(s, Spin);
      var k := SpinsToRank(Next(s, Spin));
      n := k + 1;
      DeliversLater(s, k);
    }
  }

  /** While the subscriber is connected a message in the queue brings the spinning thread to the callback in five steps. */
  lemma SpinsToCallback(queueSize: nat, events: seq<Event>) returns (n: nat)
    requires var c := Run(Start(queueSize), events).core; c.connected && !c.spinner.NotSpinning? && HasWork(c)
    ensures n <= 5 && Delivers(Run(Start(queueSize), events), n)
  {
    Reached(queueSize, events);
    n := SpinsToRank(Run(Start(queueSize), events));
  }

  /** The message in the callback is the last delivered one, and never the dummy. */
  lemma CallbackGetsMessages(queueSize: nat, events: seq<Event>)
    ensures var s := Run(Start(queueSize), events);
      s.core.spinner.InCallback? ==>
        && |s.delivered| > 0 && s.delivered[|s.delivered| - 1] < |s.received|
        && s.core.spinner.entry == s.received[s.delivered[|s.delivered| - 1]]
        && s.core.spinner.entry != Dummy
  {
    Reached(queueSize, events);
  }

  /** No lost wake-up: a spinning thread in its wait with a message in the queue can go on. */
  lemma NoLostWakeup(queueSize: nat, events: seq<Event>)
    ensures var s := Run(Start(queueSize), events);
      s.core.spinner.Waiting? && s.core.queue != [] ==> Allowed(s, Spin)
  {
    Reached(queueSize, events);
  }

  /** After connected_ is cleared the spinning thread takes at most one more entry. */
  lemma AtMostOneMore(queueSize: nat, events: seq<Event>)
    ensures Run(Start(queueSize), events).lastPops <= 1
  {
    Reached(queueSize, events);
  }

  // ---------- The destructor ends ----------

  function SpinnerRank(c: Core): nat {
    if c.spinner.WantQueue? then 6
    else if c.spinner.Waiting? then 5
    else if c.spinner.Woken? then (if c.queue == [] then 6 else 4)
    else if c.spinner.Holding? || c.spinner.InCallback? then 2
    else if c.spinner.LoopHead? then 1
    else 0
  }

  function DestructorRank(d: Destructor): nat { if d.Cleared? then 2 else if d.Joining? then 1 else 0 }

  function ShutdownMeasure(c: Core): nat {
    SpinnerRank(c) + (if c.receiver.Receiving? then 1 else 0) + DestructorRank(c.destructor)
  }

  /** The steps that bring shutdown on; a receive of the pass under way is none. */
  predicate IsShutdownStep(ev: Event) { ev.EndReceiving? || ev.Spin? || ev.JoinReceiver? || ev.JoinSpinner? }

  /** Every step of the three threads in shutdown, but a receive of the pass under way, makes the measure smaller. */
  lemma ShutdownDecreases(s: State, ev: Event)
    requires CoreInv(s.core) && Allowed(s, ev) && IsShutdownStep(ev) && !s.core.connected
    ensures ShutdownMeasure(Next(s, ev).core) < ShutdownMeasure(s.core)
  {
    if ev.Spin? {
      SpinDecreases(s.core);
      assert Next(s, ev).core == Spun(s.core).value;
    } else if ev.JoinReceiver? {
      JoinDecreases(s.core);
    }
  }

  lemma SpinDecreases(c: Core)
    requires CoreInv(c) && Spun(c).Some? && !c.connected
    ensures ShutdownMeasure(Spun(c).value) < ShutdownMeasure(c)
  {
  }

  lemma JoinDecreases(c: Core)
    requires CoreInv(c) && CanJoinReceiver(c)
    ensures ShutdownMeasure(JoinedReceiver(c)) < ShutdownMeasure(c)
  {
  }

  /** And until the destructor has returned one of them is possible: no thread waits for ever on another. */
  lemma ShutdownGoesOn(s: State) returns (ev: Event)
    requires Inv(s) && !s.core.destructor.Alive? && !s.core.destructor.Destroyed?
    ensures IsShutdownStep(ev) && Allowed(s, ev)
  {
    ev := if s.core.destructor.Cleared? then (if s.core.receiver.Receiving? then EndReceiving else JoinReceiver)
          else if s.core.spinner.Stopped? then JoinSpinner else Spin;
  }

  /** The destructor has begun: the object is never alive again. */
  lemma StaysInDestructor(s: State, ev: Event)
    requires Allowed(s, ev) && !s.core.destructor.Alive?
    ensures !Next(s, ev).core.destructor.Alive?
  {
  }

  /** From any state a run reaches in the destructor, it returns, with the spinning thread ended. */
  lemma {:induction false} DestructorReturns(s: State) returns (events: seq<Event>)
    requires Inv(s) && !s.core.destructor.Alive?
    ensures |events| <= ShutdownMeasure(s.core)
    ensures forall i :: 0 <= i < |events| ==> IsShutdownStep(events[i])
    ensures var c := Run(s, events).core; c.destructor.Destroyed? && (c.spinner.NotSpinning? || c.spinner.Stopped?)
    decreases ShutdownMeasure(s.core)
  {
    if s.core.destructor.Destroyed? {
      events := [];
    } else {
      var ev := ShutdownGoesOn(s);
      StepKeeps(s, ev);
      ShutdownDecreases(s, ev);
      StaysInDestructor(s, ev);
      var rest := DestructorReturns(Next(s, ev));
      events := [ev] + rest;
      assert events[1..] == rest;
    }
  }
}
