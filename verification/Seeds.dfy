/** Whole seeds of the in-memory provider: which streams may hold messages together. */
module Seeds {
  import opened Models
  import opened Observability
  import opened MemoryStores
  import opened Delivery
  import opened Runs
  import opened LowWater
  import opened Convergence
  import opened Scenarios
  import opened HeldClaims
  import opened Providers
  import Identity
  import SharedSlots

  /** No two streams that hold messages share a cursor slot. */
  predicate Unshared(streams: seq<StreamRef>, sizes: seq<nat>)
    requires |streams| == |sizes|
  {
    forall i, j | 0 <= i < j < |streams| && 0 < sizes[i] && 0 < sizes[j] :: streams[i].Key() != streams[j].Key()
  }

  /** A seed with these streams, each of this many messages. */
  predicate Shaped(seed: seq<SeedBox>, streams: seq<StreamRef>, sizes: seq<nat>) {
    |seed| == |streams| == |sizes|
    && forall i | 0 <= i < |seed| :: seed[i].stream == streams[i] && |seed[i].items| == sizes[i]
  }

  /** A seed's cursors grow strictly, and its slots are unshared exactly where its streams'
      keys are: then it meets what the low-water mark and convergence ask of a feed. */
  lemma SeedIsWellFed(seed: seq<SeedBox>, streams: seq<StreamRef>, sizes: seq<nat>)
    requires Shaped(seed, streams, sizes)
    ensures forall b | 0 <= b < |seed| :: Increasing(FeedOf(seed).boxes[b].messages)
    ensures WellFed(FeedOf(seed)) <==> Unshared(streams, sizes)
  {
    var feed := FeedOf(seed);
    forall b | 0 <= b < |feed.boxes| ensures Increasing(feed.boxes[b].messages) {
      SeededAt(seed[b].stream, seed[b].items, 1);
    }
    assert forall b | 0 <= b < |seed| ::
        feed.boxes[b].stream == streams[b] && (feed.boxes[b].messages != [] <==> 0 < sizes[b]);
  }

  /** Every message of the seed is done. */
  ghost predicate AllDone(cfg: Config, claims: Claims, seed: seq<SeedBox>) {
    forall i, j | 0 <= i < |seed| && 0 <= j < |seed[i].items| ::
      IsDone(claims, Identity.IdempotencyKey(cfg.tenant, seed[i].stream.mailbox, seed[i].items[j].providerMessageId))
  }

  lemma {:induction false} SeededKeys(cfg: Config, seed: seq<SeedBox>)
    ensures forall i, j | 0 <= i < |seed| && 0 <= j < |seed[i].items| ::
              KeyOf(cfg, FeedOf(seed).boxes[i].messages[j])
              == Identity.IdempotencyKey(cfg.tenant, seed[i].stream.mailbox, seed[i].items[j].providerMessageId)
  {
    forall i | 0 <= i < |seed|
      ensures forall j | 0 <= j < |seed[i].items| ::
                KeyOf(cfg, FeedOf(seed).boxes[i].messages[j])
                == Identity.IdempotencyKey(cfg.tenant, seed[i].stream.mailbox, seed[i].items[j].providerMessageId)
    {
      SeededAt(seed[i].stream, seed[i].items, 1);
    }
  }

  /** After `n` runs over the seed from empty stores. */
  ghost function After(cfg: Config, world: World, seed: seq<SeedBox>, n: nat): State
    requires 1 <= n
  {
    RunMany(cfg, Handling(cfg, world), FeedOf(seed), EMPTY_STATE, n).state
  }

  /** `n` runs over the seed settle every message. */
  ghost predicate Converges(cfg: Config, world: World, seed: seq<SeedBox>, n: nat)
    requires 1 <= n
  {
    AllDone(cfg, After(cfg, world, seed, n).claims, seed)
  }

  /** One run over the seed leaves everything at or behind its cursors done. */
  ghost predicate KeepsLowWater(cfg: Config, world: World, seed: seq<SeedBox>) {
    BehindIsDone(cfg, After(cfg, world, seed, 1), FeedOf(seed))
  }

  /** Over empty stores and a seed with unshared slots, however the work fails:
      `max(1, maxAttempts)` runs settle every message and leave each stream's cursor at its
      number of messages. */
  lemma {:induction false} SeedConverges(cfg: Config, world: World, seed: seq<SeedBox>, n: nat)
    requires WellFed(FeedOf(seed)) && Obliging(world) && 1 <= n && cfg.maxAttempts <= n
    ensures var run := RunMany(cfg, Handling(cfg, world), FeedOf(seed), EMPTY_STATE, n);
            && !run.escaped && run.state.report.AllTerminal() && AllDone(cfg, run.state.claims, seed)
            && forall i | 0 <= i < |seed| && seed[i].items != [] ::
                 Position(run.state.cursors, SlotOf(cfg, seed[i].stream)) == |seed[i].items|
  {
    var feed := FeedOf(seed);
    var run := RunMany(cfg, Handling(cfg, world), feed, EMPTY_STATE, n);
    EmptyIsReady(cfg, feed);
    RetriesConverge(cfg, world, feed, EMPTY_STATE, n);
    SeededKeys(cfg, seed);
    forall i | 0 <= i < |seed| && seed[i].items != []
      ensures Position(run.state.cursors, SlotOf(cfg, seed[i].stream)) == |seed[i].items|
    {
      SeededAt(seed[i].stream, seed[i].items, 1);
      assert feed.boxes[i].messages != [];
    }
  }

  lemma EmptyIsReady(cfg: Config, feed: Feed)
    requires WellFed(feed)
    ensures Ready(cfg, EMPTY_STATE, feed)
  {
  }

  // ---- Shared slots ----

  function Repeated(c: char, n: nat): string {
    if n == 0 then "" else [c] + Repeated(c, n - 1)
  }

  lemma {:induction false} RepeatedLength(c: char, n: nat)
    ensures |Repeated(c, n)| == n
  {
    if n > 0 {
      RepeatedLength(c, n - 1);
    }
  }

  function Blank(n: nat): (items: seq<SeedEmail>)
    ensures |items| == n
    ensures forall item | item in items :: item == SeedEmail("", [], None)
  {
    if n == 0 then [] else [SeedEmail("", [], None)] + Blank(n - 1)
  }

  /** A seed of this shape in which only the first message of the j-th stream has an id. */
  function Marked(streams: seq<StreamRef>, sizes: seq<nat>, j: nat, id: string): (seed: seq<SeedBox>)
    requires |streams| == |sizes| && j < |streams| && 0 < sizes[j]
    ensures Shaped(seed, streams, sizes)
  {
    seq(|streams|, i requires 0 <= i < |streams| =>
      SeedBox(streams[i], if i == j then Blank(sizes[i])[0 := SeedEmail(id, [], None)] else Blank(sizes[i])))
  }

  function Longest(streams: seq<StreamRef>): (n: nat)
    ensures forall s | s in streams :: |s.mailbox| <= n
  {
    if streams == [] then 0
    else
      var rest := Longest(streams[1..]);
      assert streams == [streams[0]] + streams[1..];
      if rest < |streams[0].mailbox| then |streams[0].mailbox| else rest
  }

  function LosingSeed(streams: seq<StreamRef>, sizes: seq<nat>, j: nat): (seed: seq<SeedBox>)
    requires |streams| == |sizes| && j < |streams| && 0 < sizes[j]
    ensures Shaped(seed, streams, sizes)
  {
    Marked(streams, sizes, j, Repeated('x', Longest(streams) + 1))
  }

  lemma MarkedItems(streams: seq<StreamRef>, sizes: seq<nat>, j: nat, id: string, b: nat, k: nat)
    requires |streams| == |sizes| && j < |streams| && 0 < sizes[j]
    requires b < |streams| && k < sizes[b]
    ensures var seed := Marked(streams, sizes, j, id);
            seed[b].items[k].providerMessageId == if b == j && k == 0 then id else ""
  {
    assert Blank(sizes[b])[k] in Blank(sizes[b]);
  }

  /** The marked message's key is longer than every other key. */
  lemma {:induction false} MarkedKeyIsAlone(cfg: Config, streams: seq<StreamRef>, sizes: seq<nat>, j: nat)
    requires |streams| == |sizes| && j < |streams| && 0 < sizes[j]
    ensures SharedSlots.Alone(cfg, FeedOf(LosingSeed(streams, sizes, j)), j)
  {
    var id, seed := Repeated('x', Longest(streams) + 1), LosingSeed(streams, sizes, j);
    var feed := FeedOf(seed);
    RepeatedLength('x', Longest(streams) + 1);
    SeededKeys(cfg, seed);
    MarkedItems(streams, sizes, j, id, j, 0);
    assert feed.boxes[j].messages != [];
    forall b, k | 0 <= b < |feed.boxes| && 0 <= k < |feed.boxes[b].messages| && !(b == j && k == 0)
      ensures KeyOf(cfg, feed.boxes[b].messages[k]) != KeyOf(cfg, feed.boxes[j].messages[0])
    {
      MarkedItems(streams, sizes, j, id, b, k);
      assert streams[b] in streams;
      assert |KeyOf(cfg, feed.boxes[b].messages[k])| < |KeyOf(cfg, feed.boxes[j].messages[0])|;
    }
  }

  lemma SeedShadows(cfg: Config, seed: seq<SeedBox>, i: nat, j: nat)
    requires i < j < |seed| && seed[i].items != [] && seed[j].items != []
    requires seed[i].stream.Key() == seed[j].stream.Key()
    ensures SharedSlots.Shadows(cfg, FeedOf(seed), i, j)
  {
    forall b | 0 <= b < |seed| ensures Increasing(FeedOf(seed).boxes[b].messages) {
      SeededAt(seed[b].stream, seed[b].items, 1);
    }
    SeededAt(seed[i].stream, seed[i].items, 1);
    SeededAt(seed[j].stream, seed[j].items, 1);
  }

  /** On a smooth day, a message behind another stream's cursor is never fetched. */
  lemma {:induction false} SharedSlotLoses(cfg: Config, world: World, streams: seq<StreamRef>, sizes: seq<nat>,
                                           i: nat, j: nat, n: nat)
    requires |streams| == |sizes| && i < j < |streams| && 0 < sizes[i] && 0 < sizes[j] && 1 <= n
    requires streams[i].Key() == streams[j].Key() && SmoothDay(world)
    ensures !Converges(cfg, world, LosingSeed(streams, sizes, j), n)
    ensures n == 1 ==> !KeepsLowWater(cfg, world, LosingSeed(streams, sizes, j))
  {
    var seed := LosingSeed(streams, sizes, j);
    SeedShadows(cfg, seed, i, j);
    MarkedKeyIsAlone(cfg, streams, sizes, j);
    ProcessIsSound(cfg, world);
    SmoothDaySettles(cfg, world);
    SharedSlots.ShadowedIsLost(cfg, Handling(cfg, world), FeedOf(seed), EMPTY_STATE, i, j, n);
    SeededKeys(cfg, seed);
    assert 0 < |seed[j].items|;
  }

  const SMOOTH_WORLD: World := (k, msg) => SMOOTH_VISIT

  lemma SmoothIsObliging()
    ensures Obliging(SMOOTH_WORLD)
  {
  }

  lemma WellFedConverges(cfg: Config, world: World, seed: seq<SeedBox>, n: nat)
    requires WellFed(FeedOf(seed)) && Obliging(world) && 1 <= n && cfg.maxAttempts <= n
    ensures Converges(cfg, world, seed, n)
  {
    SeedConverges(cfg, world, seed, n);
  }

  /** Whatever messages these streams hold and however the work fails, `max(1, maxAttempts)`
      runs settle all of them if and only if no two streams with messages share a slot. */
  lemma {:induction false} SeedsConvergeExactly(cfg: Config, streams: seq<StreamRef>, sizes: seq<nat>, n: nat)
    requires |streams| == |sizes| && 1 <= n && cfg.maxAttempts <= n
    ensures (forall seed, world: World | Shaped(seed, streams, sizes)
             && Obliging(world) :: Converges(cfg, world, seed, n))
            <==> Unshared(streams, sizes)
  {
    if Unshared(streams, sizes) {
      forall seed, world: World | Shaped(seed, streams, sizes) && Obliging(world)
        ensures Converges(cfg, world, seed, n)
      {
        SeedIsWellFed(seed, streams, sizes);
        WellFedConverges(cfg, world, seed, n);
      }
    } else {
      var i, j :| 0 <= i < j < |streams| && 0 < sizes[i] && 0 < sizes[j] && streams[i].Key() == streams[j].Key();
      SharedSlotLoses(cfg, SMOOTH_WORLD, streams, sizes, i, j, n);
      SmoothIsObliging();
    }
  }

  lemma SeedKeepsLowWater(cfg: Config, world: World, seed: seq<SeedBox>)
    requires WellFed(FeedOf(seed))
    ensures KeepsLowWater(cfg, world, seed)
  {
    EmptyIsReady(cfg, FeedOf(seed));
    LowWaterMark(cfg, world, FeedOf(seed), EMPTY_STATE);
  }

  /** And one run keeps the low-water mark, whatever fails in it, on the same condition. */
  lemma {:induction false} SeedsKeepLowWaterExactly(cfg: Config, streams: seq<StreamRef>, sizes: seq<nat>)
    requires |streams| == |sizes|
    ensures (forall seed, world: World | Shaped(seed, streams, sizes) :: KeepsLowWater(cfg, world, seed))
            <==> Unshared(streams, sizes)
  {
    if Unshared(streams, sizes) {
      forall seed, world: World | Shaped(seed, streams, sizes) ensures KeepsLowWater(cfg, world, seed) {
        SeedIsWellFed(seed, streams, sizes);
        SeedKeepsLowWater(cfg, world, seed);
      }
    } else {
      var i, j :| 0 <= i < j < |streams| && 0 < sizes[i] && 0 < sizes[j] && streams[i].Key() == streams[j].Key();
      SharedSlotLoses(cfg, SMOOTH_WORLD, streams, sizes, i, j, 1);
    }
  }

  /** The smallest such seed: a mailbox named like another mailbox's folder. */
  lemma {:induction false} TwoStreamsShareASlot(cfg: Config, n: nat)
    requires 1 <= n
    ensures var streams := [StreamRef("a:b", None), StreamRef("a", Some("b"))];
            !Converges(cfg, SMOOTH_WORLD, LosingSeed(streams, [1, 1], 1), n)
  {
    var streams := [StreamRef("a:b", None), StreamRef("a", Some("b"))];
    assert streams[0].Key() == "a:b" && streams[1].Key() == "a" + ":" + "b";
    SharedSlotLoses(cfg, SMOOTH_WORLD, streams, [1, 1], 0, 1, n);
  }
}
