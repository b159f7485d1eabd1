/** The in-memory publish/subscribe hub (internal/ws/hub.go:19-60).

    The mutex guards the subscriber set; Publish holds it while it offers its event to one
    subscriber after another.  Receiving and the close after an unsubscribe happen outside it, so
    they interleave with a running Publish. */
module Hub {
  type Channel = nat
  type Event = string

  const SUB_BUFFER := 64

  /** One attempt to send: the event, whether the buffer took it, and how many events the subscriber
      had received by then. */
  datatype Offer = Offer(event: Event, sent: bool, taken: nat)

  /** A subscriber's channel and its history: `joined` and `left` are positions in the sequence of
      published events, `left` counting while the subscriber is still subscribed. */
  datatype Sub = Sub(
    buffer: seq<Event>, closed: bool, cancelled: bool,
    received: seq<Event>, offers: seq<Offer>, joined: nat, left: nat)

  /** `publishing` holds the channels the running Publish has yet to visit. */
  datatype Lock = Unlocked | Publishing(event: Event, todo: set<Channel>)

  datatype State = State(
    subscribed: set<Channel>, subs: map<Channel, Sub>, lock: Lock, published: seq<Event>, panicked: bool)

  datatype Action =
    | Subscribe(c: Channel)
    | Unsubscribe(c: Channel)
    | Close(c: Channel)
    | Publish(event: Event)
    | Send(c: Channel)
    | EndPublish
    | Receive(c: Channel)

  function Initial(): State {
    State({}, map[], Unlocked, [], false)
  }

  function Step(s: State, a: Action): State {
    match a
    case Subscribe(c) =>
      if s.lock.Unlocked? && c !in s.subs
      then s.(subscribed := s.subscribed + {c},
              subs := s.subs[c := Sub([], false, false, [], [], |s.published|, |s.published|)]) else s
    // sync.Once lets the first cancel through; it removes the channel under the mutex.
    case Unsubscribe(c) =>
      if s.lock.Unlocked? && c in s.subs && !s.subs[c].cancelled
      then s.(subscribed := s.subscribed - {c}, subs := s.subs[c := s.subs[c].(cancelled := true)]) else s
    // and closes it afterwards, outside the mutex; closing twice would panic.
    case Close(c) =>
      if c in s.subs && s.subs[c].cancelled && !s.subs[c].closed
      then s.(subs := s.subs[c := s.subs[c].(closed := true)]) else s
    case Publish(event) =>
      if s.lock.Unlocked?
      then s.(lock := Publishing(event, s.subscribed), published := s.published + [event]) else s
    case Send(c) => if s.lock.Publishing? && c in s.lock.todo then SendTo(s, c) else s
    case EndPublish => if s.lock.Publishing? && s.lock.todo == {} then s.(lock := Unlocked) else s
    case Receive(c) =>
      if c in s.subs && s.subs[c].buffer != []
      then
        var sub := s.subs[c];
        s.(subs := s.subs[c := sub.(buffer := sub.buffer[1..], received := sub.received + [sub.buffer[0]])])
      else s
  }

  /** The select of Publish for one channel: a send, or the default when the buffer is full; sending
      on a closed channel panics. */
  function SendTo(s: State, c: Channel): State
    requires s.lock.Publishing?
  {
    var s1 := s.(lock := s.lock.(todo := s.lock.todo - {c}));
    if c !in s.subs || s.subs[c].closed then s1.(panicked := true)
    else s1.(subs := s.subs[c := TakeOffer(s.subs[c], s.lock.event)])
  }

  /** The channel after one attempt to send. */
  function TakeOffer(sub: Sub, event: Event): Sub {
    var fits := |sub.buffer| < SUB_BUFFER;
    sub.(buffer := if fits then sub.buffer + [event] else sub.buffer,
         offers := sub.offers + [Offer(event, fits, |sub.received|)], left := sub.left + 1)
  }

  function Run(actions: seq<Action>): State {
    if actions == [] then Initial() else Step(Run(actions[..|actions| - 1]), actions[|actions| - 1])
  }

  // ---------- reading a subscriber's history ----------

  ghost function Offered(offers: seq<Offer>): seq<Event> {
    seq(|offers|, k requires 0 <= k < |offers| => offers[k].event)
  }

  /** The events among the offers that were sent. */
  ghost function Sent(offers: seq<Offer>): seq<Event> {
    if offers == [] then []
    else
      var o := offers[|offers| - 1];
      var rest := Sent(offers[..|offers| - 1]);
      if o.sent then rest + [o.event] else rest
  }

  lemma SentSnoc(offers: seq<Offer>, o: Offer)
    ensures Sent(offers + [o]) == if o.sent then Sent(offers) + [o.event] else Sent(offers)
  {
    assert (offers + [o])[..|offers|] == offers;
  }

  /** An offer was refused exactly when 64 events were waiting: those sent before it, less those the
      subscriber had taken out by then. */
  ghost predicate FairlyDropped(offers: seq<Offer>) {
    forall k :: 0 <= k < |offers| ==>
      && offers[k].taken <= |Sent(offers[..k])| <= offers[k].taken + SUB_BUFFER
      && (offers[k].sent <==> |Sent(offers[..k])| - offers[k].taken < SUB_BUFFER)
  }

  // ---------- the invariant ----------

  ghost predicate SubOk(sub: Sub, published: seq<Event>) {
    && sub.joined <= sub.left <= |published|
    && Offered(sub.offers) == published[sub.joined..sub.left]
    && sub.received + sub.buffer == Sent(sub.offers)
    && |sub.buffer| <= SUB_BUFFER
    && FairlyDropped(sub.offers)
    && (sub.closed ==> sub.cancelled)
  }

  ghost predicate SubsOk(subs: map<Channel, Sub>, published: seq<Event>) {
    forall c :: c in subs ==> SubOk(subs[c], published)
  }

  /** Subscribed channels are not cancelled and have been offered everything published since they joined,
      except for the event a running Publish has not brought to them yet. */
  ghost predicate Located(s: State) {
    && (forall c :: c in s.subscribed <==> c in s.subs && !s.subs[c].cancelled)
    && (s.lock.Publishing? ==>
          s.lock.todo <= s.subscribed && s.published != [] && s.published[|s.published| - 1] == s.lock.event)
    && (forall c :: c in s.subscribed ==>
          s.subs[c].left == |s.published| - (if s.lock.Publishing? && c in s.lock.todo then 1 else 0))
  }

  ghost predicate Inv(s: State) {
    !s.panicked && SubsOk(s.subs, s.published) && Located(s)
  }

  lemma OfferKeeps(sub: Sub, published: seq<Event>, event: Event)
    requires SubOk(sub, published) && sub.left + 1 == |published| && published[sub.left] == event && !sub.closed
    ensures SubOk(TakeOffer(sub, event), published)
  {
    var o := Offer(event, |sub.buffer| < SUB_BUFFER, |sub.received|);
    OfferSent(sub, event);
    OfferedSnoc(sub.offers, o, published, sub.joined, sub.left);
    DropsStayFair(sub.offers, o);
  }

  lemma OfferSent(sub: Sub, event: Event)
    requires sub.received + sub.buffer == Sent(sub.offers)
    ensures TakeOffer(sub, event).received + TakeOffer(sub, event).buffer == Sent(TakeOffer(sub, event).offers)
  {
    SentSnoc(sub.offers, Offer(event, |sub.buffer| < SUB_BUFFER, |sub.received|));
    assert sub.received + (sub.buffer + [event]) == sub.received + sub.buffer + [event];
  }

  lemma OfferedSnoc(offers: seq<Offer>, o: Offer, published: seq<Event>, joined: nat, left: nat)
    requires joined <= left < |published| && published[left] == o.event
    requires Offered(offers) == published[joined..left]
    ensures Offered(offers + [o]) == published[joined..left + 1]
  {
    assert Offered(offers + [o]) == Offered(offers) + [o.event];
    assert published[joined..left + 1] == published[joined..left] + [o.event];
  }

  lemma DropsStayFair(offers: seq<Offer>, o: Offer)
    requires FairlyDropped(offers) && o.taken <= |Sent(offers)| <= o.taken + SUB_BUFFER
    requires o.sent <==> |Sent(offers)| - o.taken < SUB_BUFFER
    ensures FairlyDropped(offers + [o])
  {
    var more := offers + [o];
    forall k | 0 <= k < |more|
      ensures && more[k].taken <= |Sent(more[..k])| <= more[k].taken + SUB_BUFFER
              && (more[k].sent <==> |Sent(more[..k])| - more[k].taken < SUB_BUFFER)
    {
      assert k < |offers| ==> more[..k] == offers[..k] && more[k] == offers[k];
      assert k == |offers| ==> more[..k] == offers;
    }
  }

  lemma TakeKeeps(sub: Sub, published: seq<Event>)
    requires SubOk(sub, published) && sub.buffer != []
    ensures SubOk(sub.(buffer := sub.buffer[1..], received := sub.received + [sub.buffer[0]]), published)
  {
    assert sub.received + [sub.buffer[0]] + sub.buffer[1..] == sub.received + sub.buffer;
  }

  /** One channel's history moves on, and a running Publish may be done with it. */
  lemma SubMovesOn(s: State, c: Channel, sub: Sub, lock: Lock)
    requires Inv(s) && c in s.subs && SubOk(sub, s.published) && sub.cancelled == s.subs[c].cancelled
    requires if lock == s.lock then sub.left == s.subs[c].left
             else && s.lock.Publishing? && c in s.lock.todo && lock == s.lock.(todo := s.lock.todo - {c})
                  && sub.left == s.subs[c].left + 1
    ensures Inv(s.(subs := s.subs[c := sub], lock := lock))
  {
    SubsOkUpdate(s.subs, s.published, c, sub);
    LocatedUpdate(s, c, sub, lock);
  }

  lemma SubsOkUpdate(subs: map<Channel, Sub>, published: seq<Event>, c: Channel, sub: Sub)
    requires SubsOk(subs, published) && SubOk(sub, published)
    ensures SubsOk(subs[c := sub], published)
  {
  }

  lemma LocatedUpdate(s: State, c: Channel, sub: Sub, lock: Lock)
    requires Located(s) && c in s.subs && sub.cancelled == s.subs[c].cancelled
    requires if lock == s.lock then sub.left == s.subs[c].left
             else && s.lock.Publishing? && c in s.lock.todo && lock == s.lock.(todo := s.lock.todo - {c})
                  && sub.left == s.subs[c].left + 1
    ensures Located(s.(subs := s.subs[c := sub], lock := lock))
  {
  }

  lemma SendKeeps(s: State, c: Channel)
    requires Inv(s)
    ensures Inv(Step(s, Send(c)))
  {
    if s.lock.Publishing? && c in s.lock.todo {
      var sub, event := s.subs[c], s.lock.event;
      OfferKeeps(sub, s.published, event);
      SubMovesOn(s, c, TakeOffer(sub, event), s.lock.(todo := s.lock.todo - {c}));
    }
  }

  lemma ReceiveKeeps(s: State, c: Channel)
    requires Inv(s)
    ensures Inv(Step(s, Receive(c)))
  {
    if c in s.subs && s.subs[c].buffer != [] {
      var sub := s.subs[c];
      TakeKeeps(sub, s.published);
      SubMovesOn(s, c, sub.(buffer := sub.buffer[1..], received := sub.received + [sub.buffer[0]]), s.lock);
    }
  }

  lemma SubOkGrows(sub: Sub, published: seq<Event>, event: Event)
    requires SubOk(sub, published)
    ensures SubOk(sub, published + [event])
  {
    assert (published + [event])[sub.joined..sub.left] == published[sub.joined..sub.left];
  }

  lemma PublishKeeps(s: State, event: Event)
    requires Inv(s)
    ensures Inv(Step(s, Publish(event)))
  {
    if s.lock.Unlocked? {
      forall c | c in s.subs ensures SubOk(s.subs[c], s.published + [event]) {
        SubOkGrows(s.subs[c], s.published, event);
      }
    }
  }

  lemma SubscribeKeeps(s: State, c: Channel)
    requires Inv(s)
    ensures Inv(Step(s, Subscribe(c)))
  {
    if s.lock.Unlocked? && c !in s.subs {
      assert SubOk(Sub([], false, false, [], [], |s.published|, |s.published|), s.published);
    }
  }

  lemma UnsubscribeKeeps(s: State, c: Channel)
    requires Inv(s)
    ensures Inv(Step(s, Unsubscribe(c)))
  {
    if c in s.subs {
      assert SubOk(s.subs[c].(cancelled := true), s.published);
    }
  }

  lemma StepKeeps(s: State, a: Action)
    requires Inv(s)
    ensures Inv(Step(s, a))
  {
    match a
    case Send(c) => SendKeeps(s, c);
    case Receive(c) => ReceiveKeeps(s, c);
    case Publish(event) => PublishKeeps(s, event);
    case Subscribe(c) => SubscribeKeeps(s, c);
    case Unsubscribe(c) => UnsubscribeKeeps(s, c);
    case Close(c) =>
      if c in s.subs && s.subs[c].cancelled {
        SubMovesOn(s, c, s.subs[c].(closed := true), s.lock);
      }
    case EndPublish =>
  }

  lemma {:induction false} RunKeeps(actions: seq<Action>)
    ensures Inv(Run(actions))
  {
    if actions != [] {
      RunKeeps(actions[..|actions| - 1]);
      StepKeeps(Run(actions[..|actions| - 1]), actions[|actions| - 1]);
    }
  }

  // ---------- the theorems ----------

  /** No event is ever sent on a closed channel. */
  lemma NeverPanics(actions: seq<Action>)
    ensures !Run(actions).panicked
  {
    RunKeeps(actions);
  }

  /** What a subscriber receives is a prefix of what was sent to it, in order; what was sent is what
      was offered less the drops; what was offered is every event published while it was subscribed,
      in publish order; and one is dropped exactly when the 64-slot buffer is full. */
  lemma Delivery(actions: seq<Action>, c: Channel)
    requires c in Run(actions).subs
    ensures var s := Run(actions); var sub := s.subs[c];
            && sub.received <= Sent(sub.offers) && |Sent(sub.offers)| - |sub.received| <= SUB_BUFFER
            && sub.joined <= sub.left <= |s.published|
            && Offered(sub.offers) == s.published[sub.joined..sub.left]
            && FairlyDropped(sub.offers)
            && (s.lock.Unlocked? && c in s.subscribed ==> sub.left == |s.published|)
  {
    RunKeeps(actions);
    var sub := Run(actions).subs[c];
    assert Sent(sub.offers)[..|sub.received|] == sub.received;
  }

  /** `a` is a subsequence of `b`: its elements stand in `b` at increasing positions `at`. */
  ghost predicate Embeds(a: seq<Event>, b: seq<Event>, at: seq<nat>) {
    && |at| == |a|
    && (forall k :: 0 <= k < |at| ==> at[k] < |b| && a[k] == b[at[k]])
    && (forall k, m :: 0 <= k < m < |at| ==> at[k] < at[m])
  }

  lemma {:induction false} SentEmbeds(offers: seq<Offer>) returns (at: seq<nat>)
    ensures Embeds(Sent(offers), Offered(offers), at)
  {
    at := [];
    if offers != [] {
      var front := offers[..|offers| - 1];
      var rest := SentEmbeds(front);
      assert forall k :: 0 <= k < |front| ==> Offered(offers)[k] == Offered(front)[k];
      at := if offers[|offers| - 1].sent then rest + [|offers| - 1] else rest;
    }
  }

  /** Each subscriber's events are a subsequence, in publish order, of those published while it was
      subscribed. */
  lemma ReceivedInOrder(actions: seq<Action>, c: Channel) returns (at: seq<nat>)
    requires c in Run(actions).subs
    ensures var s := Run(actions); var sub := s.subs[c];
            sub.joined <= sub.left <= |s.published| && Embeds(sub.received, s.published[sub.joined..sub.left], at)
  {
    Delivery(actions, c);
    var sub := Run(actions).subs[c];
    at := SentEmbeds(sub.offers);
    at := at[..|sub.received|];
  }

  lemma StaysCancelled(s: State, a: Action, c: Channel)
    requires Inv(s) && c in s.subs && s.subs[c].cancelled
    ensures c in Step(s, a).subs && Step(s, a).subs[c].cancelled && Step(s, a).subs[c].offers == s.subs[c].offers
  {
  }

  lemma CancelledRun(actions: seq<Action>, a: Action, c: Channel)
    requires c in Run(actions).subs && Run(actions).subs[c].cancelled
    ensures var s := Run(actions + [a]);
            c in s.subs && s.subs[c].cancelled && s.subs[c].offers == Run(actions).subs[c].offers
  {
    RunKeeps(actions);
    assert (actions + [a])[..|actions|] == actions;
    StaysCancelled(Run(actions), a, c);
  }

  /** After an unsubscribe nothing more is offered, whatever follows. */
  lemma {:induction false} LeftForGood(actions: seq<Action>, later: seq<Action>, c: Channel)
    requires c in Run(actions).subs && Run(actions).subs[c].cancelled
    ensures var s := Run(actions + later);
            c in s.subs && s.subs[c].cancelled && s.subs[c].offers == Run(actions).subs[c].offers
    decreases |later|
  {
    if later == [] {
      assert actions + later == actions;
    } else {
      var front, a := later[..|later| - 1], later[|later| - 1];
      LeftForGood(actions, front, c);
      CancelledRun(actions + front, a, c);
      assert actions + later == (actions + front) + [a];
    }
  }

  // ---------- what each action is for ----------

  lemma Snoc(actions: seq<Action>, a: Action)
    ensures Run(actions + [a]) == Step(Run(actions), a)
  {
    assert (actions + [a])[..|actions|] == actions;
  }

  /** The channel after an event was brought to it: at the end of its buffer, or dropped if 64 are waiting. */
  ghost predicate Brought(sub: Sub, sub': Sub, event: Event) {
    && sub'.buffer == (if |sub.buffer| < 64 then sub.buffer + [event] else sub.buffer)
    && |sub'.offers| == |sub.offers| + 1 && sub'.offers[..|sub.offers|] == sub.offers
    && sub'.offers[|sub.offers|].event == event && (sub'.offers[|sub.offers|].sent <==> |sub.buffer| < 64)
    && sub'.received == sub.received && sub'.closed == sub.closed && sub'.cancelled == sub.cancelled
  }

  lemma SendBrings(s: State, c: Channel)
    requires Inv(s) && s.lock.Publishing? && c in s.lock.todo
    ensures var s' := Step(s, Send(c));
            && s'.lock == s.lock.(todo := s.lock.todo - {c}) && s'.subscribed == s.subscribed
            && s'.published == s.published && s'.subs.Keys == s.subs.Keys
            && Brought(s.subs[c], s'.subs[c], s.lock.event)
            && forall d :: d in s.subs && d != c ==> s'.subs[d] == s.subs[d]
  {
    OfferBrings(s.subs[c], s.lock.event);
    assert s.subs[c := TakeOffer(s.subs[c], s.lock.event)].Keys == s.subs.Keys;
  }

  lemma OfferBrings(sub: Sub, event: Event)
    ensures Brought(sub, TakeOffer(sub, event), event)
  {
  }

  /** The channels still to be visited get the event, the others keep what they have. */
  ghost predicate Spread(s: State, r: State, event: Event, todo: set<Channel>) {
    && r.subscribed == s.subscribed && r.subs.Keys == s.subs.Keys && r.lock.Unlocked? && todo <= s.subs.Keys
    && forall d :: d in s.subs ==> if d in todo then Brought(s.subs[d], r.subs[d], event) else r.subs[d] == s.subs[d]
  }

  /** A running Publish never blocks: it visits the channels it has left, one step each, whatever their
      subscribers do, and lets go of the mutex. */
  lemma {:induction false} PublishFinishes(actions: seq<Action>) returns (more: seq<Action>)
    requires Run(actions).lock.Publishing?
    ensures var s := Run(actions); var r := Run(more);
            && actions <= more && |more| == |actions| + |s.lock.todo| + 1 && r.published == s.published
            && Spread(s, r, s.lock.event, s.lock.todo)
    decreases |Run(actions).lock.todo|
  {
    RunKeeps(actions);
    var s := Run(actions);
    if s.lock.todo == {} {
      more := actions + [EndPublish];
      Snoc(actions, EndPublish);
    } else {
      var c :| c in s.lock.todo;
      SendBrings(s, c);
      Snoc(actions, Send(c));
      var mid := actions + [Send(c)];
      OneLess(s.lock.todo, c);
      more := PublishFinishes(mid);
      assert actions <= mid <= more;
      SpreadOn(s, Run(mid), Run(more), c);
    }
  }

  lemma OneLess(todo: set<Channel>, c: Channel)
    requires c in todo
    ensures |todo - {c}| == |todo| - 1
  {
  }

  lemma SpreadOn(s: State, mid: State, r: State, c: Channel)
    requires s.lock.Publishing? && c in s.lock.todo && c in s.subs && mid.subs.Keys == s.subs.Keys
    requires mid.subscribed == s.subscribed && Brought(s.subs[c], mid.subs[c], s.lock.event)
    requires forall d :: d in s.subs && d != c ==> mid.subs[d] == s.subs[d]
    requires Spread(mid, r, s.lock.event, s.lock.todo - {c})
    ensures Spread(s, r, s.lock.event, s.lock.todo)
  {
  }

  /** Publish on a hub whose mutex is free: every channel subscribed at that moment is offered the event, which
      takes its place at the end of the buffer or is dropped if 64 are waiting; no other channel is touched. */
  lemma PublishReaches(actions: seq<Action>, event: Event) returns (more: seq<Action>)
    requires Run(actions).lock.Unlocked?
    ensures var s := Run(actions); var r := Run(more);
            && actions <= more && |more| == |actions| + |s.subscribed| + 2
            && r.published == s.published + [event] && Spread(s, r, event, s.subscribed)
  {
    Snoc(actions, Publish(event));
    RunKeeps(actions);
    more := PublishFinishes(actions + [Publish(event)]);
  }

  /** A subscriber takes the oldest waiting event, whoever holds the mutex; with none waiting it takes nothing. */
  lemma TakesOldest(actions: seq<Action>, c: Channel)
    requires c in Run(actions).subs
    ensures var sub := Run(actions).subs[c]; var s' := Step(Run(actions), Receive(c));
            && c in s'.subs
            && (if sub.buffer == [] then s'.subs[c] == sub
                else && s'.subs[c].received == sub.received + [sub.buffer[0]]
                     && [sub.buffer[0]] + s'.subs[c].buffer == sub.buffer)
            && s'.lock == Run(actions).lock && s'.subs == Run(actions).subs[c := s'.subs[c]]
  {
    var sub := Run(actions).subs[c];
    if sub.buffer == [] {
      assert Run(actions).subs[c := sub] == Run(actions).subs;
    } else {
      assert [sub.buffer[0]] + sub.buffer[1..] == sub.buffer;
    }
  }

  /** With the mutex free a new channel is subscribed, empty, from the next event on; a cancel takes a channel
      out once and for all, and its channel is closed exactly once, after that. */
  lemma ComesAndGoes(actions: seq<Action>, c: Channel)
    requires Run(actions).lock.Unlocked?
    ensures var s := Run(actions);
            && (c !in s.subs ==>
                  var s' := Step(s, Subscribe(c));
                  && s'.subscribed == s.subscribed + {c} && c in s'.subs
                  && s'.subs[c].buffer == s'.subs[c].received == [] && !s'.subs[c].closed
                  && s'.subs[c].joined == |s.published|)
            && (c in s.subscribed ==>
                  var s' := Step(s, Unsubscribe(c));
                  && s'.subscribed == s.subscribed - {c} && c in s'.subs && s'.subs[c].cancelled
                  && Step(s', Unsubscribe(c)) == s' && s'.subs[c].buffer == s.subs[c].buffer)
            && (c in s.subs ==>
                  && c in Step(s, Close(c)).subs
                  && (Step(s, Close(c)).subs[c].closed <==> c !in s.subscribed))
  {
    RunKeeps(actions);
  }
}
