/** persistence/streaming.go: a subscription to one actor's journal, raced against that actor's
    persist-then-publish steps and against everybody else's publications. Journal positions and
    published indices are the same numbers here. */
module Streaming {
  import opened FlowModel

  datatype StreamEvent = StreamEvent(actor: string, index: int, event: Event)

  // ----- The subscription buffer -----

  /** What `SubscribeActorJournal` shares between its callbacks; `delivered` is every call of the
      subscriber's function so far. */
  datatype Buffer = Buffer(
    filtered: bool,
    committed: bool,
    buffered: seq<StreamEvent>,
    highestIndex: int,
    delivered: seq<StreamEvent>)

  predicate Matches(name: string, from: nat, e: StreamEvent) { e.actor == name && e.index >= from }

  /** A publication reaches the subscription. */
  function Receive(b: Buffer, name: string, from: nat, e: StreamEvent): Buffer {
    if b.filtered && !Matches(name, from, e) then b
    else if !b.committed then b.(buffered := b.buffered + [e])
    else if e.index > b.highestIndex then b.(delivered := b.delivered + [e])
    else b
  }

  /** The journal read hands over one stored event. */
  function Stored(b: Buffer, from: nat, e: StreamEvent): Buffer {
    b.(delivered := b.delivered + [e], highestIndex := from)
  }

  /** The buffered events are handed over, without looking for repetitions. */
  function Flushed(b: Buffer): Buffer { b.(delivered := b.delivered + b.buffered, committed := true) }

  class Subscription {
    const persistenceName: string
    const fromIndex: nat
    var filtered: bool
    var committed: bool
    var bufferedEvents: seq<StreamEvent>
    var highestIndex: int
    var delivered: seq<StreamEvent>

    function View(): Buffer
      reads this
    {
      Buffer(filtered, committed, bufferedEvents, highestIndex, delivered)
    }

    /** persistence/streaming.go:73-76: subscribed, but not yet filtered. */
    constructor (name: string, from: nat)
      ensures persistenceName == name && fromIndex == from && View() == Buffer(false, false, [], -1, [])
    {
      persistenceName, fromIndex := name, from;
      filtered, committed, bufferedEvents, highestIndex, delivered := false, false, [], -1, [];
    }

    /** persistence/streaming.go:90. */
    method WithPredicate()
      modifies `filtered
      ensures View() == old(View()).(filtered := true)
    {
      filtered := true;
    }

    /** persistence/streaming.go:76-95. */
    method OnPublished(e: StreamEvent)
      modifies `bufferedEvents, `delivered
      ensures View() == Receive(old(View()), persistenceName, fromIndex, e)
    {
      if !filtered || (e.actor == persistenceName && e.index >= fromIndex) {
        if committed {
          if e.index > highestIndex {
            delivered := delivered + [e];
          }
        } else {
          bufferedEvents := bufferedEvents + [e];
        }
      }
    }

    /** persistence/streaming.go:98-106. */
    method OnStored(idx: nat, e: Event)
      modifies `delivered, `highestIndex
      ensures View() == Stored(old(View()), fromIndex, StreamEvent(persistenceName, idx, e))
    {
      delivered := delivered + [StreamEvent(persistenceName, idx, e)];
      highestIndex := fromIndex;
    }

    /** persistence/streaming.go:108-114. */
    method Flush()
      modifies `delivered, `committed
      ensures View() == Flushed(old(View()))
    {
      for i := 0 to |bufferedEvents|
        invariant View() == old(View()).(delivered := old(delivered) + bufferedEvents[..i])
      {
        delivered := delivered + [bufferedEvents[i]];
        assert bufferedEvents[..i + 1] == bufferedEvents[..i] + [bufferedEvents[i]];
      }
      assert bufferedEvents[..|bufferedEvents|] == bufferedEvents;
      committed := true;
    }
  }

  // ----- All interleavings -----

  datatype SubscriptionPhase = Unsubscribed | Unfiltered | Filtered | Reading | Live

  /** One actor, its journal, and one subscription to it. `snapshot` is what the journal read
      returned and `next` the index it hands over next. The last three fields only remember what
      happened: how much was published when the subscription was made and when the buffer was
      flushed, and what the subscription let in before it was filtered. */
  datatype System = System(
    name: string,
    from: nat,
    journal: seq<Event>,
    published: nat,
    phase: SubscriptionPhase,
    sub: Buffer,
    snapshot: seq<Event>,
    next: nat,
    subscribedAt: nat,
    flushedAt: nat,
    strays: seq<StreamEvent>)

  datatype Step =
    | Persist(event: Event)
    | Publish
    | PublishOther(other: StreamEvent)
    | Subscribe
    | SetPredicate
    | ReadJournal
    | HandOver
    | Flush

  function Start(name: string, from: nat): System {
    System(name, from, [], 0, Unsubscribed, Buffer(false, false, [], -1, []), [], from, 0, 0, [])
  }

  /** The actor publishes each event before it persists the next one (persistence/streaming.go:151),
      and the subscriber works through `SubscribeActorJournal` from top to bottom. */
  predicate Enabled(s: System, step: Step) {
    match step
    case Persist(_) => s.published == |s.journal|
    case Publish => s.published < |s.journal|
    case PublishOther(e) => e.actor != s.name
    case Subscribe => s.phase.Unsubscribed?
    case SetPredicate => s.phase.Unfiltered?
    case ReadJournal => s.phase.Filtered?
    case HandOver => s.phase.Reading? && s.next < |s.snapshot|
    case Flush => s.phase.Reading? && s.next >= |s.snapshot|
  }

  /** A publication as seen by a system whose subscription may or may not exist yet. */
  function Seen(s: System, e: StreamEvent): System {
    if s.phase.Unsubscribed? then s
    else s.(sub := Receive(s.sub, s.name, s.from, e),
            strays := if s.phase.Unfiltered? && !Matches(s.name, s.from, e) then s.strays + [e] else s.strays)
  }

  function Next(s: System, step: Step): System
    requires Enabled(s, step)
  {
    match step
    case Persist(e) => s.(journal := s.journal + [e])
    case Publish => Seen(s, StreamEvent(s.name, s.published, s.journal[s.published])).(published := s.published + 1)
    case PublishOther(e) => Seen(s, e)
    case Subscribe => s.(phase := Unfiltered, subscribedAt := s.published)
    case SetPredicate => s.(phase := Filtered, sub := s.sub.(filtered := true))
    case ReadJournal => s.(phase := Reading, snapshot := s.journal)
    case HandOver => s.(sub := Stored(s.sub, s.from, StreamEvent(s.name, s.next, s.snapshot[s.next])), next := s.next + 1)
    case Flush => s.(phase := Live, sub := Flushed(s.sub), flushedAt := s.published)
  }

  /** The state after a run, or None if some step was not possible where it stands. */
  function After(name: string, from: nat, steps: seq<Step>): Option<System> {
    if steps == [] then Some(Start(name, from))
    else
      var m := After(name, from, steps[..|steps| - 1]);
      var step := steps[|steps| - 1];
      if m.Some? && Enabled(m.value, step) then Some(Next(m.value, step)) else None
  }

  // ----- What has been delivered -----

  function Max(a: int, b: int): int { if a < b then b else a }

  /** The events of journal `j` from index `a` up to, not including, `b`, as its actor's. */
  function Slice(name: string, j: seq<Event>, a: nat, b: nat): (es: seq<StreamEvent>)
    requires a < b ==> b <= |j|
    ensures |es| == Max(0, b - a)
    ensures forall i :: 0 <= i < |es| ==> es[i] == StreamEvent(name, a + i, j[a + i])
  {
    if a >= b then [] else seq(b - a, i requires 0 <= i < b - a => StreamEvent(name, a + i, j[a + i]))
  }

  /** The events of `es` that match, or those that do not. */
  function Sift(name: string, from: nat, matching: bool, es: seq<StreamEvent>): seq<StreamEvent> {
    if es == [] then []
    else
      var e := es[|es| - 1];
      Sift(name, from, matching, es[..|es| - 1]) + (if Matches(name, from, e) == matching then [e] else [])
  }

  /** After the commit, events below this index are skipped: `highestIndex` is `fromIndex` if the
      journal read returned anything at all. */
  function Threshold(s: System): nat { if |s.snapshot| > s.from then s.from + 1 else s.from }

  /** What a live subscription has been given of the actor's events: the journal as read, then
      what was published between subscribing and flushing, then what was published since. */
  function Log(s: System): seq<StreamEvent>
    requires Progress(s)
  {
    Slice(s.name, s.journal, s.from, |s.snapshot|)
    + Slice(s.name, s.journal, Max(s.from, s.subscribedAt), s.flushedAt)
    + Slice(s.name, s.journal, Max(s.flushedAt, Threshold(s)), s.published)
  }

  // ----- The invariant -----

  predicate Progress(s: System) {
    && s.published <= |s.journal| <= s.published + 1
    && s.snapshot <= s.journal
    && s.from <= s.next <= Max(s.from, |s.snapshot|)
    && s.subscribedAt <= s.published && s.flushedAt <= s.published
    && (s.sub.filtered <==> s.phase.Filtered? || s.phase.Reading? || s.phase.Live?)
    && (s.sub.committed <==> s.phase.Live?)
    && s.sub.highestIndex == (if s.next > s.from then s.from else -1)
    && (!s.phase.Reading? && !s.phase.Live? ==> s.snapshot == [] && s.next == s.from)
    && (s.phase.Reading? || s.phase.Live? ==> s.subscribedAt <= |s.snapshot|)
    && (s.phase.Live? ==> |s.snapshot| <= s.flushedAt + 1 && s.next >= |s.snapshot| && s.subscribedAt <= s.flushedAt)
  }

  predicate Contents(s: System)
    requires Progress(s)
  {
    && (s.phase.Unsubscribed? ==> s.sub == Buffer(false, false, [], -1, []) && s.strays == [])
    && (!s.phase.Unsubscribed? && !s.phase.Live? ==>
          && s.sub.delivered == Slice(s.name, s.journal, s.from, s.next)
          && Sift(s.name, s.from, true, s.sub.buffered) == Slice(s.name, s.journal, Max(s.from, s.subscribedAt), s.published)
          && Sift(s.name, s.from, false, s.sub.buffered) == s.strays)
    && (s.phase.Live? ==>
          && Sift(s.name, s.from, true, s.sub.delivered) == Log(s)
          && Sift(s.name, s.from, false, s.sub.delivered) == s.strays)
  }

  predicate Invariant(s: System) { Progress(s) && Contents(s) }

  lemma SiftSnoc(name: string, from: nat, matching: bool, es: seq<StreamEvent>, e: StreamEvent)
    ensures Sift(name, from, matching, es + [e])
         == Sift(name, from, matching, es) + (if Matches(name, from, e) == matching then [e] else [])
  {
    assert (es + [e])[..|es|] == es;
  }

  lemma {:induction false} SiftConcat(name: string, from: nat, matching: bool, a: seq<StreamEvent>, b: seq<StreamEvent>)
    ensures Sift(name, from, matching, a + b) == Sift(name, from, matching, a) + Sift(name, from, matching, b)
    decreases |b|
  {
    if b == [] {
      assert a + b == a;
    } else {
      var n := |b| - 1;
      SiftConcat(name, from, matching, a, b[..n]);
      assert a + b == (a + b[..n]) + [b[n]];
      SiftSnoc(name, from, matching, a + b[..n], b[n]);
    }
  }

  lemma SliceSnoc(name: string, j: seq<Event>, a: nat, b: nat)
    requires b < |j|
    ensures Slice(name, j, a, b + 1) == Slice(name, j, a, b) + (if a <= b then [StreamEvent(name, b, j[b])] else [])
  {
  }

  lemma SliceGrows(name: string, j: seq<Event>, j': seq<Event>, a: nat, b: nat)
    requires j <= j' && (a < b ==> b <= |j|)
    ensures Slice(name, j, a, b) == Slice(name, j', a, b)
  {
  }

  lemma {:induction false} SiftSlice(name: string, from: nat, j: seq<Event>, a: nat, b: nat)
    requires b <= |j| && from <= a
    ensures Sift(name, from, true, Slice(name, j, a, b)) == Slice(name, j, a, b)
    ensures Sift(name, from, false, Slice(name, j, a, b)) == []
    decreases b
  {
    hide Slice;
    if a < b {
      SiftSlice(name, from, j, a, b - 1);
      SliceSnoc(name, j, a, b - 1);
      var e := StreamEvent(name, b - 1, j[b - 1]);
      SiftSnoc(name, from, true, Slice(name, j, a, b - 1), e);
      SiftSnoc(name, from, false, Slice(name, j, a, b - 1), e);
    } else {
      assert Slice(name, j, a, b) == [];
    }
  }

  // ----- Every step keeps it -----

  lemma PersistKeeps(s: System, e: Event)
    requires Invariant(s) && Enabled(s, Persist(e))
    ensures Invariant(Next(s, Persist(e)))
  {
    var t := Next(s, Persist(e));
    SliceGrows(s.name, s.journal, t.journal, s.from, s.next);
    SliceGrows(s.name, s.journal, t.journal, Max(s.from, s.subscribedAt), s.published);
    if s.phase.Live? {
      SliceGrows(s.name, s.journal, t.journal, s.from, |s.snapshot|);
      SliceGrows(s.name, s.journal, t.journal, Max(s.from, s.subscribedAt), s.flushedAt);
      SliceGrows(s.name, s.journal, t.journal, Max(s.flushedAt, Threshold(s)), s.published);
    }
  }

  /** A publication that finds the subscription buffering. */
  lemma PublishBuffers(s: System)
    requires Invariant(s) && Enabled(s, Publish) && !s.phase.Live? && !s.phase.Unsubscribed?
    ensures Invariant(Next(s, Publish))
  {
    hide Slice, Log, Sift;
    var e := StreamEvent(s.name, s.published, s.journal[s.published]);
    SiftSnoc(s.name, s.from, true, s.sub.buffered, e);
    SiftSnoc(s.name, s.from, false, s.sub.buffered, e);
    SliceSnoc(s.name, s.journal, Max(s.from, s.subscribedAt), s.published);
  }

  lemma PublishProgress(s: System)
    requires Progress(s) && Enabled(s, Publish) && s.phase.Live?
    ensures var t := Next(s, Publish);
            var e := StreamEvent(s.name, s.published, s.journal[s.published]);
            && Progress(t) && t == s.(sub := t.sub, published := t.published) && t.published == s.published + 1
            && t.sub.delivered == s.sub.delivered + (if Max(s.flushedAt, Threshold(s)) <= s.published then [e] else [])
  {
  }

  lemma LogGrows(s: System, t: System)
    requires Progress(s) && Progress(t) && s.published < |s.journal|
    requires t == s.(sub := t.sub, published := s.published + 1)
    ensures var e := StreamEvent(s.name, s.published, s.journal[s.published]);
            Log(t) == Log(s) + (if Max(s.flushedAt, Threshold(s)) <= s.published then [e] else [])
  {
    hide Slice, Progress;
    SliceSnoc(s.name, s.journal, Max(s.flushedAt, Threshold(s)), s.published);
  }

  /** A publication that finds the subscription live. */
  lemma PublishDelivers(s: System)
    requires Invariant(s) && Enabled(s, Publish) && s.phase.Live?
    ensures Invariant(Next(s, Publish))
  {
    hide Slice, Progress, Next, Log, Sift;
    var e := StreamEvent(s.name, s.published, s.journal[s.published]);
    PublishProgress(s);
    LogGrows(s, Next(s, Publish));
    if Max(s.flushedAt, Threshold(s)) <= s.published {
      SiftSnoc(s.name, s.from, true, s.sub.delivered, e);
      SiftSnoc(s.name, s.from, false, s.sub.delivered, e);
    } else {
      assert s.sub.delivered + [] == s.sub.delivered && Log(s) + [] == Log(s);
    }
  }

  lemma PublishOtherKeeps(s: System, e: StreamEvent)
    requires Invariant(s) && Enabled(s, PublishOther(e))
    ensures Invariant(Next(s, PublishOther(e)))
  {
    SiftSnoc(s.name, s.from, true, s.sub.buffered, e);
    SiftSnoc(s.name, s.from, false, s.sub.buffered, e);
  }

  lemma HandOverKeeps(s: System)
    requires Invariant(s) && Enabled(s, HandOver)
    ensures Invariant(Next(s, HandOver))
  {
    SliceSnoc(s.name, s.journal, s.from, s.next);
  }

  lemma FlushKeeps(s: System)
    requires Invariant(s) && Enabled(s, Flush)
    ensures Invariant(Next(s, Flush))
  {
    SiftConcat(s.name, s.from, true, s.sub.delivered, s.sub.buffered);
    SiftConcat(s.name, s.from, false, s.sub.delivered, s.sub.buffered);
    assert s.sub.delivered == Slice(s.name, s.journal, s.from, |s.snapshot|);
    SiftSlice(s.name, s.from, s.journal, s.from, |s.snapshot|);
  }

  lemma NextKeeps(s: System, step: Step)
    requires Invariant(s) && Enabled(s, step)
    ensures Invariant(Next(s, step))
  {
    match step
    case Persist(e) => PersistKeeps(s, e);
    case Publish =>
      if s.phase.Live? { PublishDelivers(s); } else if !s.phase.Unsubscribed? { PublishBuffers(s); }
    case PublishOther(e) => PublishOtherKeeps(s, e);
    case HandOver => HandOverKeeps(s);
    case Flush => FlushKeeps(s);
    case _ =>
  }

  /** Over every run: once live, the subscriber has been given exactly `Log` of the actor's own
      events, in that order, and beyond it exactly what got in before the filter was set. */
  lemma {:induction false} DeliveredIsLog(name: string, from: nat, steps: seq<Step>)
    requires After(name, from, steps).Some?
    ensures var s := After(name, from, steps).value;
            && s.name == name && s.from == from && Invariant(s)
            && (s.phase.Live? ==>
                  && Sift(name, from, true, s.sub.delivered) == Log(s)
                  && Sift(name, from, false, s.sub.delivered) == s.strays)
  {
    if steps != [] {
      DeliveredIsLog(name, from, steps[..|steps| - 1]);
      NextKeeps(After(name, from, steps[..|steps| - 1]).value, steps[|steps| - 1]);
    }
  }

  // ----- What that means for the subscriber -----

  /** An event of the actor at or after `fromIndex`. */
  function Own(s: System, i: nat): StreamEvent
    requires i < |s.journal|
  {
    StreamEvent(s.name, i, s.journal[i])
  }

  /** Sifting keeps every occurrence of a matching event. */
  lemma {:induction false} SiftCounts(name: string, from: nat, es: seq<StreamEvent>, e: StreamEvent)
    requires Matches(name, from, e)
    ensures multiset(Sift(name, from, true, es))[e] == multiset(es)[e]
  {
    if es != [] {
      var n := |es| - 1;
      SiftCounts(name, from, es[..n], e);
      assert es == es[..n] + [es[n]];
    }
  }

  lemma {:induction false} SliceCounts(s: System, a: nat, b: nat, i: nat)
    requires b <= |s.journal| && i < |s.journal|
    ensures multiset(Slice(s.name, s.journal, a, b))[Own(s, i)] == if a <= i < b then 1 else 0
    decreases b
  {
    if a < b {
      SliceCounts(s, a, b - 1, i);
      SliceSnoc(s.name, s.journal, a, b - 1);
    }
  }

  /** How often a live subscriber has been given event `i`: once from the journal read if it was
      stored by then, once more if it was published after the subscription was made, except that
      the event at `fromIndex` itself is not repeated after the flush. */
  lemma DeliveryCount(name: string, from: nat, steps: seq<Step>, i: nat)
    requires After(name, from, steps).Some? && After(name, from, steps).value.phase.Live?
    requires from <= i < |After(name, from, steps).value.journal|
    ensures var s := After(name, from, steps).value;
            multiset(s.sub.delivered)[Own(s, i)]
            == (if i < |s.snapshot| then 1 else 0)
             + (if s.subscribedAt <= i < s.published && !(i == from && s.flushedAt <= i < |s.snapshot|) then 1 else 0)
  {
    var s := After(name, from, steps).value;
    DeliveredIsLog(name, from, steps);
    SiftCounts(name, from, s.sub.delivered, Own(s, i));
    SliceCounts(s, from, |s.snapshot|, i);
    SliceCounts(s, Max(from, s.subscribedAt), s.flushedAt, i);
    SliceCounts(s, Max(s.flushedAt, Threshold(s)), s.published, i);
  }

  /** Nothing is lost: a live subscriber has been given every published event from `fromIndex` on. */
  lemma NothingIsLost(name: string, from: nat, steps: seq<Step>, i: nat)
    requires After(name, from, steps).Some? && After(name, from, steps).value.phase.Live?
    requires from <= i < After(name, from, steps).value.published
    ensures var s := After(name, from, steps).value;
            i < |s.journal| && Own(s, i) in s.sub.delivered
  {
    var s := After(name, from, steps).value;
    DeliveredIsLog(name, from, steps);
    DeliveryCount(name, from, steps, i);
    assert multiset(s.sub.delivered)[Own(s, i)] > 0;
    assert Own(s, i) in multiset(s.sub.delivered);
  }

  /** Exactly these events are given twice, and none more often: those published after the
      subscription was made and already stored when the journal was read, but for the event at
      `fromIndex` if it is published after the flush. */
  lemma RepeatedExactly(name: string, from: nat, steps: seq<Step>, i: nat)
    requires After(name, from, steps).Some? && After(name, from, steps).value.phase.Live?
    requires from <= i < |After(name, from, steps).value.journal|
    ensures var s := After(name, from, steps).value;
            && multiset(s.sub.delivered)[Own(s, i)] <= 2
            && (multiset(s.sub.delivered)[Own(s, i)] == 2 <==>
                  s.subscribedAt <= i < |s.snapshot| && i < s.published && (i == from ==> i < s.flushedAt))
  {
    DeliveryCount(name, from, steps, i);
  }

  /** Every event comes after all those before it, down to `fromIndex`. */
  ghost predicate InOrder(name: string, from: nat, j: seq<Event>, es: seq<StreamEvent>) {
    forall p, i :: 0 <= p < |es| && Matches(name, from, es[p]) && from <= i < es[p].index && i < |j| ==>
      StreamEvent(name, i, j[i]) in es[..p]
  }

  /** All the actor's events from `from` up to, not including, `b` are there. */
  ghost predicate Covers(name: string, from: nat, j: seq<Event>, es: seq<StreamEvent>, b: nat) {
    forall i :: from <= i < b && i < |j| ==> StreamEvent(name, i, j[i]) in es
  }

  /** A stretch of events that starts no later than what is already covered keeps the order. */
  lemma SliceInOrder(name: string, from: nat, j: seq<Event>, es: seq<StreamEvent>, covered: nat, a: nat, b: nat)
    requires InOrder(name, from, j, es) && Covers(name, from, j, es, covered) && from <= a <= covered && b <= |j|
    ensures InOrder(name, from, j, es + Slice(name, j, a, b))
    ensures Covers(name, from, j, es + Slice(name, j, a, b), Max(covered, b))
  {
    hide Slice;
    var tail := Slice(name, j, a, b);
    var all := es + tail;
    forall p, i | 0 <= p < |all| && Matches(name, from, all[p]) && from <= i < all[p].index && i < |j|
      ensures StreamEvent(name, i, j[i]) in all[..p]
    {
      if p < |es| {
        assert all[..p] == es[..p];
      } else {
        assert all[..p] == es + tail[..p - |es|];
        if i >= covered { assert tail[..p - |es|][i - a] == StreamEvent(name, i, j[i]); }
      }
    }
    forall i | from <= i < Max(covered, b) && i < |j| ensures StreamEvent(name, i, j[i]) in all {
      if i >= covered { assert tail[i - a] == StreamEvent(name, i, j[i]); }
    }
  }

  lemma LogInOrder(s: System)
    requires Invariant(s) && s.phase.Live?
    ensures InOrder(s.name, s.from, s.journal, Log(s))
  {
    hide InOrder, Covers, Contents, Slice;
    assert InOrder(s.name, s.from, s.journal, []) && Covers(s.name, s.from, s.journal, [], s.from) by { NothingInOrder(s); }
    var read := [] + Slice(s.name, s.journal, s.from, |s.snapshot|);
    var flushed := read + Slice(s.name, s.journal, Max(s.from, s.subscribedAt), s.flushedAt);
    SliceInOrder(s.name, s.from, s.journal, [], s.from, s.from, |s.snapshot|);
    var covered := Max(s.from, |s.snapshot|);
    SliceInOrder(s.name, s.from, s.journal, read, covered, Max(s.from, s.subscribedAt), s.flushedAt);
    SliceInOrder(s.name, s.from, s.journal, flushed, Max(covered, s.flushedAt), Max(s.flushedAt, Threshold(s)), s.published);
    assert read == Slice(s.name, s.journal, s.from, |s.snapshot|);
  }

  lemma NothingInOrder(s: System)
    ensures InOrder(s.name, s.from, s.journal, []) && Covers(s.name, s.from, s.journal, [], s.from)
  {
  }

  lemma {:induction false} SiftMembers(name: string, from: nat, matching: bool, es: seq<StreamEvent>, e: StreamEvent)
    requires e in Sift(name, from, matching, es)
    ensures e in es && Matches(name, from, e) == matching
  {
    var n := |es| - 1;
    if e in Sift(name, from, matching, es[..n]) { SiftMembers(name, from, matching, es[..n], e); }
  }

  /** Order survives the events in between that do not match. */
  lemma SiftInOrder(name: string, from: nat, j: seq<Event>, es: seq<StreamEvent>)
    requires InOrder(name, from, j, Sift(name, from, true, es))
    ensures InOrder(name, from, j, es)
  {
    forall p, i | 0 <= p < |es| && Matches(name, from, es[p]) && from <= i < es[p].index && i < |j|
      ensures StreamEvent(name, i, j[i]) in es[..p]
    {
      var before := Sift(name, from, true, es[..p]);
      var all := Sift(name, from, true, es);
      assert es == es[..p] + [es[p]] + es[p + 1..];
      SiftConcat(name, from, true, es[..p] + [es[p]], es[p + 1..]);
      SiftSnoc(name, from, true, es[..p], es[p]);
      assert all[|before|] == es[p];
      assert all[..|before|] == before;
      SiftMembers(name, from, true, es[..p], StreamEvent(name, i, j[i]));
    }
  }

  /** First deliveries are in index order, in every state of every run: before an event is given
      for the first time, all its predecessors from `fromIndex` on have been. */
  lemma FirstDeliveriesInOrder(name: string, from: nat, steps: seq<Step>)
    requires After(name, from, steps).Some?
    ensures var s := After(name, from, steps).value; InOrder(name, from, s.journal, s.sub.delivered)
  {
    var s := After(name, from, steps).value;
    DeliveredIsLog(name, from, steps);
    if s.phase.Live? {
      LogInOrder(s);
      SiftInOrder(name, from, s.journal, s.sub.delivered);
    } else {
      forall p, i | 0 <= p < |s.sub.delivered| && from <= i < s.sub.delivered[p].index && i < |s.journal|
        ensures StreamEvent(name, i, s.journal[i]) in s.sub.delivered[..p]
      {
        assert s.sub.delivered[..p][i - from] == StreamEvent(name, i, s.journal[i]);
      }
    }
  }

  lemma {:induction false} SiftNothing(name: string, from: nat, es: seq<StreamEvent>)
    ensures Sift(name, from, false, es) == [] <==> forall k :: 0 <= k < |es| ==> Matches(name, from, es[k])
  {
    if es != [] { SiftNothing(name, from, es[..|es| - 1]); }
  }

  /** The subscription exists before its filter does. A live subscriber has been given only
      events of the actor from `fromIndex` on exactly when no other event was published between
      the two. */
  lemma OnlyWantedEvents(name: string, from: nat, steps: seq<Step>)
    requires After(name, from, steps).Some? && After(name, from, steps).value.phase.Live?
    ensures var s := After(name, from, steps).value;
            s.strays == [] <==> forall k :: 0 <= k < |s.sub.delivered| ==> Matches(name, from, s.sub.delivered[k])
  {
    DeliveredIsLog(name, from, steps);
    SiftNothing(name, from, After(name, from, steps).value.sub.delivered);
  }

  lemma AfterSnoc(name: string, from: nat, steps: seq<Step>, step: Step)
    requires After(name, from, steps).Some? && Enabled(After(name, from, steps).value, step)
    ensures After(name, from, steps + [step]) == Some(Next(After(name, from, steps).value, step))
  {
    assert (steps + [step])[..|steps|] == steps;
  }

  /** A run in which another actor's event slips in before the filter is set. */
  lemma StrangerIsDelivered(name: string, from: nat, e: StreamEvent)
    requires e.actor != name
    ensures var steps := [Subscribe, PublishOther(e), SetPredicate, ReadJournal, Flush];
            && After(name, from, steps).Some?
            && After(name, from, steps).value.phase.Live? && After(name, from, steps).value.sub.delivered == [e]
  {
    var s1 := [] + [Subscribe];
    var s2 := s1 + [PublishOther(e)];
    var s3 := s2 + [SetPredicate];
    var s4 := s3 + [ReadJournal];
    AfterSnoc(name, from, [], Subscribe);
    AfterSnoc(name, from, s1, PublishOther(e));
    AfterSnoc(name, from, s2, SetPredicate);
    AfterSnoc(name, from, s3, ReadJournal);
    AfterSnoc(name, from, s4, Flush);
    assert s4 + [Flush] == [Subscribe, PublishOther(e), SetPredicate, ReadJournal, Flush];
  }

  /** A run in which the flush repeats what the journal read has handed over. */
  lemma FlushRepeats(name: string, e: Event)
    ensures var steps := [Subscribe, SetPredicate, Persist(e), Publish, ReadJournal, HandOver, Flush];
            && After(name, 0, steps).Some? && After(name, 0, steps).value.phase.Live?
            && After(name, 0, steps).value.sub.delivered == [StreamEvent(name, 0, e), StreamEvent(name, 0, e)]
  {
    var s1 := [] + [Subscribe];
    var s2 := s1 + [SetPredicate];
    var s3 := s2 + [Persist(e)];
    var s4 := s3 + [Publish];
    var s5 := s4 + [ReadJournal];
    var s6 := s5 + [HandOver];
    AfterSnoc(name, 0, [], Subscribe);
    AfterSnoc(name, 0, s1, SetPredicate);
    AfterSnoc(name, 0, s2, Persist(e));
    AfterSnoc(name, 0, s3, Publish);
    AfterSnoc(name, 0, s4, ReadJournal);
    AfterSnoc(name, 0, s5, HandOver);
    AfterSnoc(name, 0, s6, Flush);
    assert s6 + [Flush] == [Subscribe, SetPredicate, Persist(e), Publish, ReadJournal, HandOver, Flush];
  }

  // ----- Publications whose index lags behind the journal -----

  /** An actor whose start wrote `lag` events back publishes the event at position `i` with index
      `i - lag`: what a subscription makes of positions `a` up to, not including, `b`. */
  function Heard(sub: Buffer, name: string, from: nat, j: seq<Event>, lag: int, a: nat, b: nat): Buffer
    requires a <= b <= |j|
    decreases b
  {
    if a == b then sub
    else Receive(Heard(sub, name, from, j, lag, a, b - 1), name, from, StreamEvent(name, b - 1 - lag, j[b - 1]))
  }

  /** The events at positions `a` up to, not including, `b`, with indices that lag. */
  function Lagging(name: string, j: seq<Event>, lag: int, a: nat, b: nat): (es: seq<StreamEvent>)
    requires a < b ==> b <= |j|
    ensures |es| == Max(0, b - a)
    ensures forall i :: 0 <= i < |es| ==> es[i] == StreamEvent(name, a + i - lag, j[a + i])
  {
    if a >= b then [] else seq(b - a, i requires 0 <= i < b - a => StreamEvent(name, a + i - lag, j[a + i]))
  }

  /** The first journal position whose lagging index a filtered subscription lets through. */
  function FirstHeard(sub: Buffer, from: nat, lag: int): int {
    lag + if sub.committed then Max(from, sub.highestIndex + 1) else from
  }

  /** A filtered subscription is given, or buffers, exactly the positions from there on; all others
      are lost to it, though they may be at or after `fromIndex`. */
  lemma {:induction false} HeardExactly(sub: Buffer, name: string, from: nat, j: seq<Event>, lag: int, a: nat, b: nat)
    requires a <= b <= |j| && sub.filtered
    ensures var news := Lagging(name, j, lag, Max(a, FirstHeard(sub, from, lag)), b);
            Heard(sub, name, from, j, lag, a, b)
            == (if sub.committed then sub.(delivered := sub.delivered + news) else sub.(buffered := sub.buffered + news))
    decreases b
  {
    var first := Max(a, FirstHeard(sub, from, lag));
    if a < b {
      HeardExactly(sub, name, from, j, lag, a, b - 1);
      assert Lagging(name, j, lag, first, b)
          == Lagging(name, j, lag, first, b - 1) + (if first <= b - 1 then [StreamEvent(name, b - 1 - lag, j[b - 1])] else []);
    } else {
      assert Lagging(name, j, lag, first, b) == [];
    }
  }

  /** So a live subscriber is given all that is published from `fromIndex` on if and only if none of
      it lies before the first position let through. */
  lemma LagLoses(sub: Buffer, name: string, from: nat, j: seq<Event>, lag: nat, a: nat, b: nat)
    requires a <= b <= |j| && sub.filtered && sub.committed
    ensures sub.delivered <= Heard(sub, name, from, j, lag, a, b).delivered
    ensures (forall i :: Max(a, from) <= i < b ==> StreamEvent(name, i - lag, j[i]) in Heard(sub, name, from, j, lag, a, b).delivered[|sub.delivered|..])
            <==> b <= Max(a, from) || FirstHeard(sub, from, lag) <= Max(a, from)
  {
    var news := Lagging(name, j, lag, Max(a, FirstHeard(sub, from, lag)), b);
    HeardExactly(sub, name, from, j, lag, a, b);
    assert Heard(sub, name, from, j, lag, a, b).delivered[|sub.delivered|..] == news;
    var first := Max(a, from);
    if first < b {
      if FirstHeard(sub, from, lag) <= first {
        forall i | first <= i < b ensures StreamEvent(name, i - lag, j[i]) in news {
          assert news[i - Max(a, FirstHeard(sub, from, lag))] == StreamEvent(name, i - lag, j[i]);
        }
      } else if StreamEvent(name, first - lag, j[first]) in news {
        assert false;
      }
    }
  }
}
