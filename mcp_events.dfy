/** The in-memory event ring of lib/mcpEvents.ts: `pushMcpEvent` stamps an event,
    appends it and drops the oldest once the ring exceeds `RING_MAX`;
    `dumpMcpEvents` hands out a copy. */
module McpEvents {
  import opened JsText

  const RingMax: nat := 200

  /** What a caller passes: `ts` may be left out; `detail` is any value. */
  datatype EventInput<D> = EventInput(ts: Option<int>, source: string, kind: string, detail: Option<D>)

  datatype McpEvent<D> = McpEvent(ts: int, source: string, kind: string, detail: Option<D>)

  /** `{ ts: Date.now(), ...evt }`: the caller's fields, and the caller's `ts` wins over the clock. */
  function Stamp<D>(evt: EventInput<D>, now: int): (e: McpEvent<D>)
    ensures e.source == evt.source && e.kind == evt.kind && e.detail == evt.detail
    ensures evt.ts.Some? ==> e.ts == evt.ts.value
    ensures evt.ts.None? ==> e.ts == now
  {
    McpEvent(evt.ts.GetOr(now), evt.source, evt.kind, evt.detail)
  }

  /** The last `n` elements of `s` (all of it when it is shorter): `s.slice(-n)`. */
  function LastN<T>(s: seq<T>, n: nat): (r: seq<T>)
    ensures |r| == if |s| <= n then |s| else n
    ensures r == s[|s| - |r|..]
  {
    if |s| <= n then s else s[|s| - n..]
  }

  /** `ring.push(item); if (ring.length > RING_MAX) ring.shift();` */
  function PushCapped<T>(ring: seq<T>, item: T): (r: seq<T>)
    requires |ring| <= RingMax
    ensures |r| <= RingMax
    ensures |r| > 0 && r[|r| - 1] == item
    ensures |ring| < RingMax ==> r == ring + [item]
    ensures |ring| == RingMax ==> r == ring[1..] + [item]
  {
    var grown := ring + [item];
    if |grown| > RingMax then grown[1..] else grown
  }

  /** Pushing keeps the ring equal to the most recent `RING_MAX` items ever pushed. */
  lemma PushKeepsLatest<T>(history: seq<T>, item: T)
    ensures |LastN(history, RingMax)| <= RingMax
    ensures PushCapped(LastN(history, RingMax), item) == LastN(history + [item], RingMax)
  {
    var h := history + [item];
    if |history| >= RingMax {
      var k := |history| - RingMax;
      assert LastN(history, RingMax) == history[k..];
      assert history[k..][1..] == history[k + 1..];
      assert h[k + 1..] == history[k + 1..] + [item];
    } else {
      assert LastN(history, RingMax) == history;
    }
  }

  /** Pushing a batch one at a time leaves the last `RING_MAX` of everything pushed, oldest first. */
  lemma {:induction false} PushAllKeepsLatest<T>(history: seq<T>, items: seq<T>)
    ensures PushAll(LastN(history, RingMax), items) == LastN(history + items, RingMax)
    decreases |items|
  {
    if items != [] {
      var init := items[..|items| - 1];
      var x := items[|items| - 1];
      var r := LastN(history, RingMax);
      assert PushAll(r, items) == PushCapped(PushAll(r, init), x);
      PushAllKeepsLatest(history, init);
      PushKeepsLatest(history + init, x);
      assert items == init + [x];
      AppendAssoc(history, init, [x]);
    } else {
      assert history + items == history;
    }
  }

  function PushAll<T>(ring: seq<T>, items: seq<T>): (r: seq<T>)
    requires |ring| <= RingMax
    ensures |r| <= RingMax
  {
    if items == [] then ring else PushCapped(PushAll(ring, items[..|items| - 1]), items[|items| - 1])
  }

  class EventRing<D> {
    var ring: seq<McpEvent<D>>
    /** Every event ever pushed, oldest first. */
    ghost var History: seq<McpEvent<D>>

    ghost predicate Valid()
      reads this
    {
      ring == LastN(History, RingMax)
    }

    constructor ()
      ensures Valid() && ring == [] && History == []
    {
      ring := [];
      History := [];
    }

    /** `pushMcpEvent(evt)`; returns the stamped item it emits to subscribers. */
    method Push(evt: EventInput<D>, now: int) returns (item: McpEvent<D>)
      requires Valid()
      modifies this
      ensures Valid()
      ensures item == Stamp(evt, now)
      ensures History == old(History) + [item]
      ensures ring == PushCapped(old(ring), item)
    {
      item := Stamp(evt, now);
      PushKeepsLatest(History, item);
      var grown := ring + [item];
      if |grown| > RingMax {
        grown := grown[1..];
      }
      ring := grown;
      History := History + [item];
    }

    /** `dumpMcpEvents()`: `ring.slice(-RING_MAX)`, which is the whole ring. */
    method Dump() returns (r: seq<McpEvent<D>>)
      requires Valid()
      ensures r == ring
      ensures r == LastN(History, RingMax)
    {
      var start := if |ring| > RingMax then |ring| - RingMax else 0;
      r := ring[start..];
    }
  }
}
