/** persistence/in_memory_provider.go: the journal kept in memory, one list of events per actor. */
module Journals {
  import opened FlowModel

  /** One call of the reader's function: the index it is told and the event. */
  datatype Call = Call(index: nat, event: Event)

  /** What reading journal `j` from `start` calls back: indices count from the start of the read. */
  function ReadFrom(j: seq<Event>, start: nat): (calls: seq<Call>)
    ensures start < |j| ==> |calls| == |j| - start
  {
    if start >= |j| then [] else seq(|j| - start, i requires 0 <= i < |j| - start => Call(i, j[start + i]))
  }

  class InMemoryProvider {
    var store: map<string, seq<Event>>

    /** The journal of an actor; one never heard of has an empty one. */
    function Journal(name: string): seq<Event>
      reads this
    {
      if name in store then store[name] else []
    }

    constructor ()
      ensures store == map[]
    {
      store := map[];
    }

    /** persistence/in_memory_provider.go:33: an unknown actor gets an empty entry. */
    method LoadOrInit(name: string) returns (loaded: bool)
      modifies this
      ensures loaded == (name in old(store)) && name in store
      ensures forall n: string :: Journal(n) == old(Journal(n))
    {
      loaded := name in store;
      if !loaded {
        store := store[name := []];
      }
    }

    /** persistence/in_memory_provider.go:73. */
    method GetEvents(name: string, eventIndexStart: nat) returns (calls: seq<Call>)
      modifies this
      ensures calls == ReadFrom(old(Journal(name)), eventIndexStart)
      ensures eventIndexStart >= |old(Journal(name))| ==> calls == []
      ensures eventIndexStart < |old(Journal(name))| ==>
                && |calls| == |old(Journal(name))| - eventIndexStart
                && forall i :: 0 <= i < |calls| ==> calls[i].event == old(Journal(name))[eventIndexStart + i] && calls[i].index == i
      ensures forall n: string :: Journal(n) == old(Journal(n))
    {
      var _ := LoadOrInit(name);
      calls := [];
      if eventIndexStart >= |store[name]| {
        return;
      }
      var events := store[name][eventIndexStart..];
      for idx := 0 to |events|
        invariant calls == ReadFrom(store[name], eventIndexStart)[..idx]
      {
        calls := calls + [Call(idx, events[idx])];
      }
    }

    /** persistence/in_memory_provider.go:84: the index is not looked at. */
    method PersistEvent(name: string, eventIndex: nat, event: Event)
      modifies this
      ensures Journal(name) == old(Journal(name)) + [event]
      ensures forall n: string :: n != name ==> Journal(n) == old(Journal(n))
    {
      var _ := LoadOrInit(name);
      store := store[name := store[name] + [event]];
    }
  }

  /** The indices handed over are positions in the journal exactly for reads from the start and
      reads that return nothing; a replay without snapshots reads from the start. */
  lemma IndicesAreAbsolute(j: seq<Event>, start: nat)
    ensures (forall i :: 0 <= i < |ReadFrom(j, start)| ==> ReadFrom(j, start)[i].index == start + i)
            <==> start == 0 || start >= |j|
  {
    if 0 < start < |j| { assert ReadFrom(j, start)[0].index == 0; }
  }

  /** Reading back what was written: persisting and then reading from the start returns every
      event once, in order, with its position. */
  lemma ReadBack(j: seq<Event>, e: Event)
    ensures ReadFrom(j + [e], 0) == ReadFrom(j, 0) + [Call(|j|, e)]
  {
  }

  /** A read from the middle of a journal tells the wrong index for its first event. */
  lemma MiddleReadMislabels(a: Event, b: Event)
    ensures ReadFrom([a, b], 1) == [Call(0, b)]
  {
  }
}
