/**
 * The outbound channel of one connection and everything that runs against it concurrently
 * (`ConnTx` in src/broker.rs, the writer task in src/server.rs).
 *
 * Each atomic access is a step of its own.  Any number of control sends are in flight, each
 * between adding its bytes and enqueuing its message; any number of calls of `send_output` are
 * under way (a broadcast only holds the read lock, so a desktop that was replaced can still
 * deliver beside its successor); one writer drains; nudge tasks run whenever the scheduler
 * likes.  A step that is not enabled leaves the state alone, so a run is any sequence of steps.
 */
module Channel {
  import opened Common
  import Frames

  const CLIENT_OUTPUT_BUDGET_BYTES: nat := 2 * 1024 * 1024
  const RESYNC_MIN_INTERVAL_SECS: nat := 10
  /** The counter is a 64-bit word and wraps. */
  const WORD: nat := 0x1_0000_0000_0000_0000

  datatype Msg = Text(bytes: Bytes) | Binary(bytes: Bytes) | Close

  function ByteLen(msg: Msg): nat {
    if msg.Close? then 0 else |msg.bytes|
  }

  predicate IsPtyOutput(msg: Msg) {
    msg.Binary? && msg.bytes != [] && msg.bytes[0] == Frames.PTY_OUTPUT
  }

  /** A message on its way out, and whether `send_output` put it there (live output). */
  datatype Item = Item(msg: Msg, live: bool)

  datatype Phase = SawClean | OverBudget | WithinBudget | Counted

  /** One call of `send_output` that found the connection clean, and how far it has come. */
  datatype Delivery = Delivery(msg: Msg, phase: Phase)

  datatype State = State(
    queued: nat,
    dirty: bool,
    lastResync: Option<Instant>,
    channel: seq<Item>,
    alive: bool,                 // the receiver exists
    inflight: seq<Item>,         // control sends that have added their bytes and not yet enqueued
    deliveries: seq<Delivery>,   // calls of `send_output` under way
    held: Option<Item>,          // received by the writer, bytes not yet subtracted
    nudges: nat,                 // spawned nudge tasks that have not run
    clock: Instant,
    history: History)

  /** What has happened, never read by a step. */
  datatype History = History(
    total: int,                  // what the counter would be if it did not wrap
    lost: nat,                   // bytes of messages that met no receiver
    offered: seq<Msg>,           // output offered since the last clear
    output: seq<Msg>,            // output enqueued since the last clear
    entered: seq<Item>,          // every message ever enqueued
    drained: seq<Item>,          // every message handed to the socket
    stores: nat,                 // times the dirty flag was set
    dirtied: nat,                // of those, the clean-to-dirty transitions
    grants: seq<Instant>)        // when resync_required was granted

  const Initial := State(0, false, None, [], true, [], [], None, 0, 0, History(0, 0, [], [], [], [], 0, 0, []))

  datatype Step =
    | ControlAdd(msg: Msg)
    | ControlEnqueue(index: nat)
    | Offer(msg: Msg)
    | LoadQueued(index: nat)
    | StoreDirty(index: nat)
    | OutputAdd(index: nat)
    | OutputEnqueue(index: nat)
    | Receive
    | Subtract
    | Stop
    | ClearDirty
    | RunNudge(now: Instant)

  // ---------------------------------------------------------------- sizes

  function Weight(item: Item, liveOnly: bool): nat {
    if liveOnly && !item.live then 0 else ByteLen(item.msg)
  }

  /** Total size of some messages, or of the live output among them. */
  function Size(items: seq<Item>, liveOnly: bool): nat {
    if items == [] then 0 else Size(Front(items), liveOnly) + Weight(Last(items), liveOnly)
  }

  /** What can be counted of the deliveries under way. */
  datatype Share =
    | InCounter   // bytes added to the counter
    | Unadded     // bytes not added yet
    | Admitted    // bytes let through by the budget and not added yet
    | Undecided   // calls that may still set the dirty flag

  function DeliveryWeight(d: Delivery, share: Share): nat {
    match share
    case InCounter => if d.phase.Counted? then ByteLen(d.msg) else 0
    case Unadded => if d.phase.Counted? then 0 else ByteLen(d.msg)
    case Admitted => if d.phase.WithinBudget? then ByteLen(d.msg) else 0
    case Undecided => if d.phase.SawClean? || d.phase.OverBudget? then 1 else 0
  }

  function Tally(ds: seq<Delivery>, share: Share): nat {
    if ds == [] then 0 else Tally(Front(ds), share) + DeliveryWeight(Last(ds), share)
  }

  function HeldItems(s: State): seq<Item> {
    if s.held.Some? then [s.held.value] else []
  }

  /** Every message whose bytes are in the counter: enqueued, on its way in, or on its way out. */
  function Outstanding(s: State, liveOnly: bool): nat {
    Size(s.channel, liveOnly) + Size(HeldItems(s), liveOnly) + Size(s.inflight, liveOnly) + Tally(s.deliveries, InCounter)
  }

  /** All of these messages are in memory at once, so together they are smaller than the address space. */
  predicate Fits(s: State, extra: nat) {
    Outstanding(s, false) + Tally(s.deliveries, Unadded) + extra < WORD
  }

  // ---------------------------------------------------------------- steps

  /** A send reaches the channel, or finds the receiver gone. */
  function Enqueue(s: State, item: Item): State {
    if s.alive then s.(channel := s.channel + [item], history := s.history.(entered := s.history.entered + [item]))
    else s.(history := s.history.(lost := s.history.lost + ByteLen(item.msg)))
  }

  /** `fetch_add` */
  function Add(s: State, n: nat): State {
    s.(queued := (s.queued + n) % WORD, history := s.history.(total := s.history.total + n))
  }

  /** Wrapping subtraction, as `fetch_sub` does it. */
  function WrappingSub(a: nat, b: nat): nat {
    if b <= a then a - b else (a + WORD - b % WORD) % WORD
  }

  function Removed<T>(xs: seq<T>, i: nat): seq<T>
    requires i < |xs|
  {
    xs[..i] + xs[i + 1..]
  }

  predicate AtPhase(s: State, i: nat, phase: Phase) {
    i < |s.deliveries| && s.deliveries[i].phase == phase
  }

  /**
   * `ClearDirty` waits for the deliveries: it is called under the write lock on the accounts
   * (src/broker.rs:526), and every `send_output` runs inside a broadcast's read lock
   * (src/broker.rs:915).  `Stop` also stands for aborting the writer, which has no await between
   * receiving a message and subtracting it.
   */
  predicate Enabled(s: State, step: Step) {
    match step
    case ControlAdd(msg) => Fits(s, ByteLen(msg))
    case ControlEnqueue(i) => i < |s.inflight|
    case Offer(msg) => Fits(s, ByteLen(msg))
    case LoadQueued(i) => AtPhase(s, i, SawClean)
    case StoreDirty(i) => AtPhase(s, i, OverBudget)
    case OutputAdd(i) => AtPhase(s, i, WithinBudget)
    case OutputEnqueue(i) => AtPhase(s, i, Counted)
    case Receive => s.alive && s.held.None? && s.channel != []
    case Subtract => s.held.Some? && !s.held.value.msg.Close?
    case Stop => s.alive && (s.held.None? || s.held.value.msg.Close?)
    case ClearDirty => s.deliveries == []
    case RunNudge(now) => s.nudges > 0 && s.clock <= now
  }

  predicate Over(queued: nat, msg: Msg) {
    (queued + ByteLen(msg)) % WORD > CLIENT_OUTPUT_BUDGET_BYTES
  }

  function Advance(s: State, i: nat, phase: Phase): State
    requires i < |s.deliveries|
  {
    s.(deliveries := s.deliveries[i := s.deliveries[i].(phase := phase)])
  }

  function Act(s: State, step: Step): State
    requires Enabled(s, step)
  {
    var h := s.history;
    match step
    case ControlAdd(msg) => Add(s, ByteLen(msg)).(inflight := s.inflight + [Item(msg, false)])
    case ControlEnqueue(i) => Enqueue(s.(inflight := Removed(s.inflight, i)), s.inflight[i])
    case Offer(msg) =>
      s.(deliveries := if s.dirty then s.deliveries else s.deliveries + [Delivery(msg, SawClean)],
         history := h.(offered := h.offered + [msg]))
    case LoadQueued(i) => Advance(s, i, if Over(s.queued, s.deliveries[i].msg) then OverBudget else WithinBudget)
    case StoreDirty(i) =>
      s.(deliveries := Removed(s.deliveries, i), dirty := true, nudges := s.nudges + 1,
         history := h.(stores := h.stores + 1, dirtied := if s.dirty then h.dirtied else h.dirtied + 1))
    case OutputAdd(i) => Add(Advance(s, i, Counted), ByteLen(s.deliveries[i].msg))
    case OutputEnqueue(i) =>
      var msg := s.deliveries[i].msg;
      var next := Enqueue(s.(deliveries := Removed(s.deliveries, i)), Item(msg, true));
      if s.alive then next.(history := next.history.(output := h.output + [msg])) else next
    case Receive => s.(channel := s.channel[1..], held := Some(s.channel[0]))
    case Subtract =>
      var n := ByteLen(s.held.value.msg);
      s.(queued := WrappingSub(s.queued, n), held := None,
         history := h.(total := h.total - n, drained := h.drained + [s.held.value]))
    case Stop =>
      s.(alive := false, channel := [], held := None, history := h.(lost := h.lost + Size(s.channel, false)))
    case ClearDirty => s.(dirty := false, history := h.(offered := [], output := []))
    case RunNudge(now) =>
      var ran := s.(nudges := s.nudges - 1, clock := now);
      if s.lastResync.Some? && AsSecs(s.lastResync.value, now) < RESYNC_MIN_INTERVAL_SECS then ran
      else ran.(lastResync := Some(now), history := h.(grants := h.grants + [now]))
  }

  function Next(s: State, step: Step): State {
    if Enabled(s, step) then Act(s, step) else s
  }

  function Run(steps: seq<Step>): State {
    if steps == [] then Initial else Next(Run(Front(steps)), Last(steps))
  }

  /** At no point are more than `k` calls of `send_output` under way. */
  predicate AtMost(steps: seq<Step>, k: nat) {
    steps == [] || (AtMost(Front(steps), k) && |Run(steps).deliveries| <= k)
  }

  // ---------------------------------------------------------------- lemmas about sizes

  lemma {:induction false} SizeConcat(a: seq<Item>, b: seq<Item>, liveOnly: bool)
    ensures Size(a + b, liveOnly) == Size(a, liveOnly) + Size(b, liveOnly)
  {
    if b == [] {
      assert a + b == a;
    } else {
      assert Front(a + b) == a + Front(b);
      SizeConcat(a, Front(b), liveOnly);
    }
  }

  lemma SizeOne(item: Item, liveOnly: bool)
    ensures Size([item], liveOnly) == Weight(item, liveOnly)
  {
    assert Front([item]) == [];
  }

  lemma SizeAppend(items: seq<Item>, item: Item, liveOnly: bool)
    ensures Size(items + [item], liveOnly) == Size(items, liveOnly) + Weight(item, liveOnly)
  {
    assert Front(items + [item]) == items;
  }

  lemma SizeRemoved(items: seq<Item>, i: nat, liveOnly: bool)
    requires i < |items|
    ensures Size(Removed(items, i), liveOnly) + Weight(items[i], liveOnly) == Size(items, liveOnly)
  {
    assert items == items[..i] + ([items[i]] + items[i + 1..]);
    SizeConcat(items[..i], [items[i]] + items[i + 1..], liveOnly);
    SizeConcat([items[i]], items[i + 1..], liveOnly);
    SizeConcat(items[..i], items[i + 1..], liveOnly);
    SizeOne(items[i], liveOnly);
  }

  lemma {:induction false} LiveIsPart(items: seq<Item>)
    ensures Size(items, true) <= Size(items, false)
  {
    if items != [] {
      LiveIsPart(Front(items));
    }
  }

  lemma {:induction false} TallyConcat(a: seq<Delivery>, b: seq<Delivery>, share: Share)
    ensures Tally(a + b, share) == Tally(a, share) + Tally(b, share)
  {
    if b == [] {
      assert a + b == a;
    } else {
      assert Front(a + b) == a + Front(b);
      TallyConcat(a, Front(b), share);
    }
  }

  lemma TallyOne(d: Delivery, share: Share)
    ensures Tally([d], share) == DeliveryWeight(d, share)
  {
    assert Front([d]) == [];
  }

  lemma TallyAppend(ds: seq<Delivery>, d: Delivery, share: Share)
    ensures Tally(ds + [d], share) == Tally(ds, share) + DeliveryWeight(d, share)
  {
    assert Front(ds + [d]) == ds;
  }

  lemma TallyRemoved(ds: seq<Delivery>, i: nat, share: Share)
    requires i < |ds|
    ensures Tally(Removed(ds, i), share) + DeliveryWeight(ds[i], share) == Tally(ds, share)
  {
    assert ds == ds[..i] + ([ds[i]] + ds[i + 1..]);
    TallyConcat(ds[..i], [ds[i]] + ds[i + 1..], share);
    TallyConcat([ds[i]], ds[i + 1..], share);
    TallyConcat(ds[..i], ds[i + 1..], share);
    TallyOne(ds[i], share);
  }

  lemma TallyUpdated(ds: seq<Delivery>, i: nat, d: Delivery, share: Share)
    requires i < |ds|
    ensures Tally(ds[i := d], share) + DeliveryWeight(ds[i], share) == Tally(ds, share) + DeliveryWeight(d, share)
  {
    TallyRemoved(ds, i, share);
    TallyRemoved(ds[i := d], i, share);
    assert Removed(ds[i := d], i) == Removed(ds, i);
  }

  // ---------------------------------------------------------------- how steps move bytes

  /** How one step moves the outstanding bytes, all of them or the live output among them. */
  function Gain(s: State, step: Step, liveOnly: bool): int
    requires Enabled(s, step)
  {
    match step
    case ControlAdd(msg) => Weight(Item(msg, false), liveOnly)
    case ControlEnqueue(i) => if s.alive then 0 else 0 - Weight(s.inflight[i], liveOnly)
    case OutputAdd(i) => ByteLen(s.deliveries[i].msg)
    case OutputEnqueue(i) => if s.alive then 0 else 0 - ByteLen(s.deliveries[i].msg)
    case Subtract => 0 - Weight(s.held.value, liveOnly)
    case Stop => 0 - Size(s.channel, liveOnly)
    case _ => 0
  }

  lemma EnqueueMoves(s: State, item: Item, liveOnly: bool)
    ensures Outstanding(Enqueue(s, item), liveOnly)
         == Outstanding(s, liveOnly) + if s.alive then Weight(item, liveOnly) else 0
  {
    SizeAppend(s.channel, item, liveOnly);
  }

  lemma ControlMoves(s: State, step: Step, liveOnly: bool)
    requires Enabled(s, step) && (step.ControlAdd? || step.ControlEnqueue?)
    ensures Outstanding(Act(s, step), liveOnly) == Outstanding(s, liveOnly) + Gain(s, step, liveOnly)
    ensures Act(s, step).deliveries == s.deliveries
  {
    match step
    case ControlAdd(msg) => SizeAppend(s.inflight, Item(msg, false), liveOnly);
    case ControlEnqueue(i) =>
      SizeRemoved(s.inflight, i, liveOnly);
      EnqueueMoves(s.(inflight := Removed(s.inflight, i)), s.inflight[i], liveOnly);
  }

  predicate Delivers(step: Step) {
    step.Offer? || step.LoadQueued? || step.StoreDirty? || step.OutputAdd? || step.OutputEnqueue?
  }

  /** How a step of a delivery changes what is counted of the deliveries. */
  function Shift(s: State, step: Step, share: Share): int
    requires Enabled(s, step) && Delivers(step)
  {
    match step
    case Offer(msg) => if s.dirty then 0 else DeliveryWeight(Delivery(msg, SawClean), share)
    case LoadQueued(i) =>
      DeliveryWeight(s.deliveries[i].(phase := if Over(s.queued, s.deliveries[i].msg) then OverBudget else WithinBudget), share)
        - DeliveryWeight(s.deliveries[i], share)
    case OutputAdd(i) => DeliveryWeight(s.deliveries[i].(phase := Counted), share) - DeliveryWeight(s.deliveries[i], share)
    case StoreDirty(i) => 0 - DeliveryWeight(s.deliveries[i], share)
    case OutputEnqueue(i) => 0 - DeliveryWeight(s.deliveries[i], share)
    case _ => 0
  }

  lemma DeliveriesShift(s: State, step: Step, share: Share)
    requires Enabled(s, step) && Delivers(step)
    ensures Tally(Act(s, step).deliveries, share) == Tally(s.deliveries, share) + Shift(s, step, share)
  {
    match step
    case Offer(msg) => TallyAppend(s.deliveries, Delivery(msg, SawClean), share);
    case LoadQueued(i) => TallyUpdated(s.deliveries, i, Act(s, step).deliveries[i], share);
    case OutputAdd(i) => TallyUpdated(s.deliveries, i, s.deliveries[i].(phase := Counted), share);
    case StoreDirty(i) => TallyRemoved(s.deliveries, i, share);
    case OutputEnqueue(i) => TallyRemoved(s.deliveries, i, share);
  }

  /** What a step of a delivery leaves alone. */
  lemma DeliveryFrame(s: State, step: Step)
    requires Enabled(s, step) && Delivers(step)
    ensures
      var t := Act(s, step);
      && t.held == s.held && t.inflight == s.inflight && t.alive == s.alive
      && t.channel == (if step.OutputEnqueue? && s.alive then s.channel + [Item(s.deliveries[step.index].msg, true)] else s.channel)
  {
  }

  lemma DeliveryMoves(s: State, step: Step, liveOnly: bool)
    requires Enabled(s, step) && Delivers(step)
    ensures Outstanding(Act(s, step), liveOnly) == Outstanding(s, liveOnly) + Gain(s, step, liveOnly)
  {
    DeliveryFrame(s, step);
    DeliveriesShift(s, step, InCounter);
    if step.OutputEnqueue? {
      SizeAppend(s.channel, Item(s.deliveries[step.index].msg, true), liveOnly);
    }
  }

  lemma WriterMoves(s: State, step: Step, liveOnly: bool)
    requires Enabled(s, step) && (step.Receive? || step.Subtract? || step.Stop?)
    ensures Outstanding(Act(s, step), liveOnly) == Outstanding(s, liveOnly) + Gain(s, step, liveOnly)
    ensures Act(s, step).deliveries == s.deliveries && Act(s, step).inflight == s.inflight
  {
    if s.held.Some? {
      SizeOne(s.held.value, liveOnly);
    }
    if step.Receive? {
      SizeRemoved(s.channel, 0, liveOnly);
      assert Removed(s.channel, 0) == s.channel[1..];
      SizeOne(s.channel[0], liveOnly);
    }
  }

  /** Clearing the flag and running a nudge touch no message. */
  lemma IdleMoves(s: State, step: Step, liveOnly: bool)
    requires Enabled(s, step) && (step.ClearDirty? || step.RunNudge?)
    ensures Outstanding(Act(s, step), liveOnly) == Outstanding(s, liveOnly)
    ensures
      var t := Act(s, step);
      && t.deliveries == s.deliveries && t.inflight == s.inflight && t.channel == s.channel && t.held == s.held
      && t.alive == s.alive && t.queued == s.queued
      && t.history.total == s.history.total && t.history.lost == s.history.lost
  {
  }

  // ---------------------------------------------------------------- byte accounting

  /** Added and not subtracted: the outstanding bytes and the lost ones, none lost while the receiver lives. */
  predicate Booked(s: State) {
    && s.history.total == Outstanding(s, false) + s.history.lost
    && Fits(s, 0)
    && (s.alive ==> s.history.lost == 0)
    && (!s.alive ==> s.channel == [] && s.held.None?)
  }

  predicate Wrapped(s: State) {
    0 <= s.history.total && s.queued == s.history.total % WORD
  }

  lemma ControlBooks(s: State, step: Step)
    requires Booked(s) && Enabled(s, step) && (step.ControlAdd? || step.ControlEnqueue?)
    ensures Booked(Act(s, step))
  {
    ControlMoves(s, step, false);
  }

  lemma DeliveryBooks(s: State, step: Step)
    requires Booked(s) && Enabled(s, step) && Delivers(step)
    ensures Booked(Act(s, step))
  {
    DeliveryMoves(s, step, false);
    DeliveryFrame(s, step);
    DeliveriesShift(s, step, Unadded);
  }

  lemma WriterBooks(s: State, step: Step)
    requires Booked(s) && Enabled(s, step) && (step.Receive? || step.Subtract? || step.Stop?)
    ensures Booked(Act(s, step))
  {
    WriterMoves(s, step, false);
  }

  lemma IdleBooks(s: State, step: Step)
    requires Booked(s) && Enabled(s, step) && (step.ClearDirty? || step.RunNudge?)
    ensures Booked(Act(s, step))
  {
    IdleMoves(s, step, false);
  }

  lemma StepBooks(s: State, step: Step)
    requires Booked(s)
    ensures Booked(Next(s, step))
  {
    if Enabled(s, step) {
      if Delivers(step) {
        DeliveryBooks(s, step);
      } else if step.ControlAdd? || step.ControlEnqueue? {
        ControlBooks(s, step);
      } else if step.ClearDirty? || step.RunNudge? {
        IdleBooks(s, step);
      } else {
        WriterBooks(s, step);
      }
    }
  }

  lemma InitiallyBooked()
    ensures Booked(Initial)
  {
  }

  lemma {:induction false} AlwaysBooked(steps: seq<Step>)
    ensures Booked(Run(steps))
  {
    if steps == [] {
      InitiallyBooked();
    } else {
      AlwaysBooked(Front(steps));
      StepBooks(Run(Front(steps)), Last(steps));
    }
  }

  /** What the books say about the numbers alone. */
  lemma BookedNumbers(s: State)
    requires Booked(s)
    ensures 0 <= s.history.total
    ensures s.alive ==> s.history.total == Outstanding(s, false) < WORD
    ensures s.held.Some? ==> s.alive && ByteLen(s.held.value.msg) <= s.history.total
  {
    if s.held.Some? {
      SizeOne(s.held.value, false);
    }
  }

  lemma AddWraps(a: nat, b: nat)
    ensures (a % WORD + b) % WORD == (a + b) % WORD
  {
  }

  lemma AddKeepsWrapped(s: State, n: nat)
    requires Wrapped(s)
    ensures Wrapped(Add(s, n))
  {
    AddWraps(s.history.total, n);
  }

  lemma OthersKeepCount(s: State, step: Step)
    requires Enabled(s, step) && !step.ControlAdd? && !step.OutputAdd? && !step.Subtract?
    ensures Act(s, step).queued == s.queued && Act(s, step).history.total == s.history.total
  {
  }

  lemma StepWraps(s: State, step: Step)
    requires Wrapped(s)
    requires s.held.Some? ==> ByteLen(s.held.value.msg) <= s.history.total < WORD
    ensures Wrapped(Next(s, step))
  {
    if Enabled(s, step) {
      if step.ControlAdd? {
        AddKeepsWrapped(s, ByteLen(step.msg));
      } else if step.OutputAdd? {
        AddKeepsWrapped(Advance(s, step.index, Counted), ByteLen(s.deliveries[step.index].msg));
      } else if !step.Subtract? {
        OthersKeepCount(s, step);
      }
    }
  }

  lemma {:induction false} AlwaysWrapped(steps: seq<Step>)
    ensures Wrapped(Run(steps))
  {
    if steps != [] {
      AlwaysWrapped(Front(steps));
      AlwaysBooked(Front(steps));
      BookedNumbers(Run(Front(steps)));
      StepWraps(Run(Front(steps)), Last(steps));
    }
  }

  /**
   * While the receiver lives the counter is exactly the bytes in the channel, those added and
   * not yet enqueued, and those received and not yet subtracted; afterwards it also carries the
   * bytes that were lost.  What the writer is about to subtract is in it.
   */
  predicate Accounted(s: State) {
    && s.queued == (Outstanding(s, false) + s.history.lost) % WORD
    && (s.alive ==> s.queued == Outstanding(s, false))
    && (s.held.Some? ==> ByteLen(s.held.value.msg) <= s.queued)
  }

  lemma BookedIsAccounted(s: State)
    requires Booked(s) && Wrapped(s)
    ensures Accounted(s)
  {
    BookedNumbers(s);
  }

  /** Byte accounting under every interleaving; in particular the writer's subtraction never underflows. */
  lemma ByteAccounting(steps: seq<Step>)
    ensures Accounted(Run(steps))
  {
    AlwaysBooked(steps);
    AlwaysWrapped(steps);
    BookedIsAccounted(Run(steps));
  }

  // ---------------------------------------------------------------- output budget

  ghost predicate NoneLive(items: seq<Item>) {
    forall i :: 0 <= i < |items| ==> !items[i].live
  }

  /** A delivery the budget has let through is no larger than the budget. */
  ghost predicate EachFits(ds: seq<Delivery>) {
    forall i :: 0 <= i < |ds| && ds[i].phase.WithinBudget? ==> ByteLen(ds[i].msg) <= CLIENT_OUTPUT_BUDGET_BYTES
  }

  ghost predicate Budgeted(s: State, k: nat) {
    && NoneLive(s.inflight)
    && (s.alive ==>
          && EachFits(s.deliveries)
          && Outstanding(s, true) + Tally(s.deliveries, Admitted) <= k * CLIENT_OUTPUT_BUDGET_BYTES)
  }

  lemma LiveOutstandingIsPart(s: State)
    ensures Outstanding(s, true) <= Outstanding(s, false)
  {
    LiveIsPart(s.channel);
    LiveIsPart(HeldItems(s));
    LiveIsPart(s.inflight);
  }

  lemma {:induction false} AdmittedBound(ds: seq<Delivery>)
    requires EachFits(ds)
    ensures Tally(ds, Admitted) <= |ds| * CLIENT_OUTPUT_BUDGET_BYTES
  {
    if ds != [] {
      AdmittedBound(Front(ds));
    }
  }

  /** While the receiver lives the comparison with the budget does not wrap. */
  lemma CheckIsExact(s: State, i: nat)
    requires Booked(s) && Wrapped(s) && s.alive && i < |s.deliveries| && !s.deliveries[i].phase.Counted?
    ensures Over(s.queued, s.deliveries[i].msg)
       <==> Outstanding(s, false) + ByteLen(s.deliveries[i].msg) > CLIENT_OUTPUT_BUDGET_BYTES
  {
    BookedNumbers(s);
    TallyRemoved(s.deliveries, i, Unadded);
  }

  /** The check against the counter is a check against the outstanding output. */
  lemma LoadBudgets(s: State, i: nat, k: nat)
    requires Booked(s) && Wrapped(s) && Budgeted(s, k) && Enabled(s, LoadQueued(i)) && |s.deliveries| <= k
    ensures Budgeted(Act(s, LoadQueued(i)), k)
  {
    var msg := s.deliveries[i].msg;
    DeliveryMoves(s, LoadQueued(i), true);
    DeliveriesShift(s, LoadQueued(i), Admitted);
    if s.alive && !Over(s.queued, msg) {
      CheckIsExact(s, i);
      LiveOutstandingIsPart(s);
      TallyRemoved(s.deliveries, i, Admitted);
      AdmittedBound(Removed(s.deliveries, i));
      OneMore(|s.deliveries| - 1, k, CLIENT_OUTPUT_BUDGET_BYTES);
    }
  }

  lemma OneMore(n: nat, k: nat, unit: nat)
    requires n + 1 <= k
    ensures n * unit + unit <= k * unit
  {
    assert k * unit == (k - n - 1) * unit + n * unit + unit;
  }

  lemma DeliveryBudgets(s: State, step: Step, k: nat)
    requires Budgeted(s, k) && Enabled(s, step) && Delivers(step) && !step.LoadQueued?
    ensures Budgeted(Act(s, step), k)
  {
    DeliveryMoves(s, step, true);
    DeliveryFrame(s, step);
    DeliveriesShift(s, step, Admitted);
    if s.alive {
      DeliveryKeepsFits(s, step);
    }
  }

  lemma DeliveryKeepsFits(s: State, step: Step)
    requires EachFits(s.deliveries) && Enabled(s, step) && Delivers(step) && !step.LoadQueued?
    ensures EachFits(Act(s, step).deliveries)
  {
  }

  lemma ControlBudgets(s: State, step: Step, k: nat)
    requires Budgeted(s, k) && Enabled(s, step) && (step.ControlAdd? || step.ControlEnqueue?)
    ensures Budgeted(Act(s, step), k)
  {
    ControlMoves(s, step, true);
    ControlShape(s, step);
  }

  /** Control sends carry no live output. */
  lemma ControlShape(s: State, step: Step)
    requires NoneLive(s.inflight) && Enabled(s, step) && (step.ControlAdd? || step.ControlEnqueue?)
    ensures NoneLive(Act(s, step).inflight)
    ensures Act(s, step).alive == s.alive && Gain(s, step, true) == 0
  {
  }

  lemma WriterBudgets(s: State, step: Step, k: nat)
    requires Budgeted(s, k) && Enabled(s, step) && (step.Receive? || step.Subtract? || step.Stop?)
    ensures Budgeted(Act(s, step), k)
  {
    WriterMoves(s, step, true);
  }

  lemma StepBudgets(s: State, step: Step, k: nat)
    requires Booked(s) && Wrapped(s) && Budgeted(s, k) && |s.deliveries| <= k
    ensures Budgeted(Next(s, step), k)
  {
    if Enabled(s, step) {
      if step.LoadQueued? {
        LoadBudgets(s, step.index, k);
      } else if Delivers(step) {
        DeliveryBudgets(s, step, k);
      } else if step.ControlAdd? || step.ControlEnqueue? {
        ControlBudgets(s, step, k);
      } else if step.ClearDirty? || step.RunNudge? {
        IdleMoves(s, step, true);
      } else {
        WriterBudgets(s, step, k);
      }
    }
  }

  lemma InitiallyBudgeted(k: nat)
    ensures Budgeted(Initial, k)
  {
  }

  lemma {:induction false} AlwaysBudgeted(steps: seq<Step>, k: nat)
    requires AtMost(steps, k)
    ensures Budgeted(Run(steps), k)
  {
    if steps == [] {
      InitiallyBudgeted(k);
    } else {
      AlwaysBudgeted(Front(steps), k);
      AlwaysBooked(Front(steps));
      AlwaysWrapped(Front(steps));
      StepBudgets(Run(Front(steps)), Last(steps), k);
    }
  }

  /**
   * However control sends and draining interleave, with at most `k` deliveries at a time the
   * live output outstanding on a connection never exceeds k times 2 MiB: 2 MiB for the one
   * desktop that is meant to deliver.
   */
  lemma OutputWithinBudget(steps: seq<Step>, k: nat)
    requires AtMost(steps, k)
    ensures Run(steps).alive ==> Outstanding(Run(steps), true) <= k * 2_097_152
  {
    AlwaysBudgeted(steps, k);
  }

  /** A delivery that saw a clean connection is over the budget if and only if it would take what is outstanding past 2 MiB. */
  lemma OverExactly(steps: seq<Step>, i: nat)
    requires Run(steps).alive && AtPhase(Run(steps), i, SawClean)
    ensures
      var s, t := Run(steps), Next(Run(steps), LoadQueued(i));
      var over := Outstanding(s, false) + ByteLen(s.deliveries[i].msg) > 2_097_152;
      t == s.(deliveries := s.deliveries[i := s.deliveries[i].(phase := if over then OverBudget else WithinBudget)])
  {
    AlwaysBooked(steps);
    AlwaysWrapped(steps);
    CheckIsExact(Run(steps), i);
  }

  /** Whether the flag was set since it was last cleared. */
  function SetSince(steps: seq<Step>): bool {
    if steps == [] then false
    else
      var past, step := Front(steps), Last(steps);
      if step.StoreDirty? && AtPhase(Run(past), step.index, OverBudget) then true
      else if step.ClearDirty? && Run(past).deliveries == [] then false
      else SetSince(past)
  }

  /** A connection is dirty exactly from a setting of the flag to the next clear. */
  lemma {:induction false} DirtyExactly(steps: seq<Step>)
    ensures Run(steps).dirty <==> SetSince(steps)
  {
    if steps != [] {
      DirtyExactly(Front(steps));
      var s, step := Run(Front(steps)), Last(steps);
      if !step.StoreDirty? && !step.ClearDirty? {
        KeepsDirty(s, step);
      }
    }
  }

  lemma KeepsDirty(s: State, step: Step)
    requires !step.StoreDirty? && !step.ClearDirty?
    ensures Next(s, step).dirty == s.dirty
  {
  }

  // ---------------------------------------------------------------- no holes, no reordering

  predicate Unbroken(s: State) {
    var h := s.history;
    if s.deliveries == [] then
      h.output <= h.offered && (s.alive && !s.dirty ==> h.output == h.offered)
    else
      && !s.dirty
      && h.offered != [] && Last(h.offered) == s.deliveries[0].msg
      && h.output <= Front(h.offered)
      && (s.alive ==> h.output == Front(h.offered))
  }

  lemma OthersUnbroken(s: State, step: Step)
    requires Enabled(s, step)
    requires step.ControlAdd? || step.ControlEnqueue? || step.Receive? || step.Subtract? || step.Stop? || step.RunNudge?
    ensures
      var t := Act(s, step);
      && t.history.offered == s.history.offered && t.history.output == s.history.output
      && t.deliveries == s.deliveries && t.dirty == s.dirty && (t.alive ==> s.alive)
  {
  }

  lemma DeliveryUnbroken(s: State, step: Step)
    requires Unbroken(s) && Enabled(s, step) && (Delivers(step) || step.ClearDirty?)
    requires |s.deliveries| <= 1 && |Act(s, step).deliveries| <= 1
    ensures Unbroken(Act(s, step))
  {
    if step.Offer? {
      assert Front(s.history.offered + [step.msg]) == s.history.offered;
    } else if step.OutputEnqueue? {
      assert s.history.offered == Front(s.history.offered) + [s.deliveries[0].msg];
    }
  }

  lemma StepUnbroken(s: State, step: Step)
    requires Unbroken(s) && |s.deliveries| <= 1 && |Next(s, step).deliveries| <= 1
    ensures Unbroken(Next(s, step))
  {
    if Enabled(s, step) {
      if Delivers(step) || step.ClearDirty? {
        DeliveryUnbroken(s, step);
      } else {
        OthersUnbroken(s, step);
      }
    }
  }

  /**
   * With one delivery at a time, between two clears the output enqueued is a prefix of the
   * output offered: a client misses a tail, never a piece in the middle.
   */
  lemma {:induction false} NoHoles(steps: seq<Step>)
    requires AtMost(steps, 1)
    ensures Run(steps).history.output <= Run(steps).history.offered
    ensures Unbroken(Run(steps))
  {
    if steps != [] {
      NoHoles(Front(steps));
      StepUnbroken(Run(Front(steps)), Last(steps));
    }
  }

  predicate Ordered(s: State) {
    && s.history.drained <= s.history.entered
    && (s.alive ==> s.history.entered == s.history.drained + HeldItems(s) + s.channel)
    && (!s.alive ==> s.held.None?)
  }

  lemma QuietOrdered(s: State, step: Step)
    requires Enabled(s, step)
    requires !step.ControlEnqueue? && !step.OutputEnqueue? && !step.Receive? && !step.Subtract? && !step.Stop?
    ensures
      var t := Act(s, step);
      && t.history.drained == s.history.drained && t.history.entered == s.history.entered
      && t.alive == s.alive && t.held == s.held && t.channel == s.channel
  {
  }

  lemma StepOrdered(s: State, step: Step)
    requires Ordered(s)
    ensures Ordered(Next(s, step))
  {
    if Enabled(s, step)
       && !step.ControlEnqueue? && !step.OutputEnqueue? && !step.Receive? && !step.Subtract? && !step.Stop? {
      QuietOrdered(s, step);
    }
  }

  /** The socket is handed messages in the order they were enqueued, none skipped. */
  lemma {:induction false} InOrder(steps: seq<Step>)
    ensures Run(steps).history.drained <= Run(steps).history.entered
    ensures Ordered(Run(steps))
  {
    if steps != [] {
      InOrder(Front(steps));
      StepOrdered(Run(Front(steps)), Last(steps));
    }
  }

  // ---------------------------------------------------------------- nudge discipline

  predicate Disciplined(s: State) {
    var g := s.history.grants;
    && |g| + s.nudges <= s.history.stores
    && s.lastResync == (if g == [] then None else Some(Last(g)))
    && (forall i :: 0 <= i < |g| ==> g[i] <= s.clock)
    && (forall i, j :: 0 <= i < j < |g| ==> g[i] + RESYNC_MIN_INTERVAL_SECS * NANOS <= g[j])
  }

  lemma OthersDiscipline(s: State, step: Step)
    requires Enabled(s, step) && !step.RunNudge? && !step.StoreDirty?
    ensures
      var t := Act(s, step);
      && t.history.grants == s.history.grants && t.history.stores == s.history.stores
      && t.nudges == s.nudges && t.lastResync == s.lastResync && t.clock == s.clock
  {
  }

  lemma GrantDisciplines(s: State, now: Instant)
    requires Disciplined(s) && Enabled(s, RunNudge(now))
    ensures Disciplined(Act(s, RunNudge(now)))
  {
    if s.lastResync.Some? {
      AsSecsIsDeadline(s.lastResync.value, now, RESYNC_MIN_INTERVAL_SECS);
    }
  }

  lemma StepDisciplines(s: State, step: Step)
    requires Disciplined(s)
    ensures Disciplined(Next(s, step))
  {
    if Enabled(s, step) {
      if step.RunNudge? {
        GrantDisciplines(s, step.now);
      } else if !step.StoreDirty? {
        OthersDiscipline(s, step);
      }
    }
  }

  /**
   * For any number of deliveries and any scheduling of the nudge tasks, grants are at least ten
   * seconds apart and, with the tasks still waiting, never outnumber the settings of the flag.
   */
  lemma {:induction false} NudgeDiscipline(steps: seq<Step>)
    ensures
      var s := Run(steps);
      && |s.history.grants| + s.nudges <= s.history.stores
      && (forall i, j :: 0 <= i < j < |s.history.grants| ==>
            AsSecs(s.history.grants[i], s.history.grants[j]) >= 10)
    ensures Disciplined(Run(steps))
  {
    if steps != [] {
      NudgeDiscipline(Front(steps));
      StepDisciplines(Run(Front(steps)), Last(steps));
    }
    var g := Run(steps).history.grants;
    forall i, j | 0 <= i < j < |g| ensures AsSecs(g[i], g[j]) >= RESYNC_MIN_INTERVAL_SECS {
      AsSecsIsDeadline(g[i], g[j], RESYNC_MIN_INTERVAL_SECS);
    }
  }

  /** A nudge task that runs is granted if and only if none was granted before, or the last ten seconds or more ago. */
  lemma GrantExactly(steps: seq<Step>, now: Instant)
    requires Enabled(Run(steps), RunNudge(now))
    ensures
      var before, after := Run(steps).history.grants, Next(Run(steps), RunNudge(now)).history.grants;
      after == if before == [] || AsSecs(Last(before), now) >= 10 then before + [now] else before
  {
    NudgeDiscipline(steps);
  }

  /** Each transition can be followed by one setting for every delivery that was under way. */
  predicate StoresBounded(s: State, k: nat) {
    s.history.stores + (if s.dirty then Tally(s.deliveries, Undecided) else 0) <= k * s.history.dirtied
  }

  lemma {:induction false} UndecidedBound(ds: seq<Delivery>)
    ensures Tally(ds, Undecided) <= |ds|
  {
    if ds != [] {
      UndecidedBound(Front(ds));
    }
  }

  lemma StoreBounds(s: State, i: nat, k: nat)
    requires StoresBounded(s, k) && |s.deliveries| <= k && Enabled(s, StoreDirty(i))
    ensures StoresBounded(Act(s, StoreDirty(i)), k)
  {
    TallyRemoved(s.deliveries, i, Undecided);
    UndecidedBound(s.deliveries);
    assert k * (s.history.dirtied + 1) == k * s.history.dirtied + k;
  }

  lemma StepStores(s: State, step: Step, k: nat)
    requires StoresBounded(s, k) && |s.deliveries| <= k
    ensures StoresBounded(Next(s, step), k)
  {
    if Enabled(s, step) {
      if step.StoreDirty? {
        StoreBounds(s, step.index, k);
      } else if Delivers(step) {
        DeliveriesShift(s, step, Undecided);
        DeliveryKeepsFlag(s, step);
      } else {
        OthersKeepFlag(s, step);
      }
    }
  }

  lemma DeliveryKeepsFlag(s: State, step: Step)
    requires Enabled(s, step) && Delivers(step) && !step.StoreDirty?
    ensures
      var t := Act(s, step);
      && t.dirty == s.dirty && t.history.stores == s.history.stores && t.history.dirtied == s.history.dirtied
      && (s.dirty ==> Shift(s, step, Undecided) <= 0)
  {
  }

  lemma OthersKeepFlag(s: State, step: Step)
    requires Enabled(s, step) && !Delivers(step)
    ensures
      var t := Act(s, step);
      && t.deliveries == s.deliveries && (t.dirty ==> s.dirty)
      && t.history.stores == s.history.stores && t.history.dirtied == s.history.dirtied
  {
  }

  lemma {:induction false} AlwaysStoresBounded(steps: seq<Step>, k: nat)
    requires AtMost(steps, k)
    ensures StoresBounded(Run(steps), k)
  {
    if steps != [] {
      AlwaysStoresBounded(Front(steps), k);
      StepStores(Run(Front(steps)), Last(steps), k);
    }
  }

  /**
   * With at most `k` deliveries at a time, grants and waiting tasks never outnumber k times the
   * clean-to-dirty transitions; with one delivery at a time, the transitions themselves.
   */
  lemma NudgesPerTransition(steps: seq<Step>, k: nat)
    requires AtMost(steps, k)
    ensures |Run(steps).history.grants| + Run(steps).nudges <= k * Run(steps).history.dirtied
  {
    NudgeDiscipline(steps);
    AlwaysStoresBounded(steps, k);
  }

  // ---------------------------------------------------------------- what two deliveries can do

  /** Steps taken from a given state. */
  function From(s: State, steps: seq<Step>): State {
    if steps == [] then s else Next(From(s, Front(steps)), Last(steps))
  }

  lemma {:induction false} RunIsFromInitial(steps: seq<Step>)
    ensures Run(steps) == From(Initial, steps)
  {
    if steps != [] {
      RunIsFromInitial(Front(steps));
    }
  }

  lemma FromStep(s: State, steps: seq<Step>, step: Step)
    ensures From(s, steps + [step]) == Next(From(s, steps), step)
  {
    assert Front(steps + [step]) == steps;
  }

  /** Some live output of a given length. */
  function Output(n: nat): (msg: Msg)
    requires 0 < n
    ensures IsPtyOutput(msg) && ByteLen(msg) == n
  {
    Binary([Frames.PTY_OUTPUT] + seq(n - 1, _ => 0))
  }

  /** Nothing has been sent, offered or nudged yet. */
  predicate Fresh(s: State) {
    && s.queued == 0 && !s.dirty && s.lastResync.None? && s.alive && s.held.None?
    && s.channel == [] && s.inflight == [] && s.deliveries == [] && s.nudges == 0 && s.clock == 0
    && s.history.offered == [] && s.history.output == [] && s.history.grants == [] && s.history.dirtied == 0
  }

  lemma FreshFits(s: State, n: nat)
    requires Fresh(s) && n < WORD
    ensures Fits(s, n)
  {
  }

  lemma OfferedClean(s: State, msg: Msg)
    requires !s.dirty && Fits(s, ByteLen(msg))
    ensures Next(s, Offer(msg)) == s.(deliveries := s.deliveries + [Delivery(msg, SawClean)],
                                      history := s.history.(offered := s.history.offered + [msg]))
  {
  }

  lemma OfferedFits(s: State, msg: Msg, extra: nat)
    requires !s.dirty && Fits(s, ByteLen(msg) + extra)
    ensures Fits(Next(s, Offer(msg)), extra)
  {
    DeliveryMoves(s, Offer(msg), false);
    DeliveriesShift(s, Offer(msg), Unadded);
  }

  lemma CheckedEmpty(s: State, i: nat)
    requires s.queued == 0 && AtPhase(s, i, SawClean) && ByteLen(s.deliveries[i].msg) < WORD
    ensures Next(s, LoadQueued(i)) == Advance(s, i, Verdict(s.deliveries[i].msg))
  {
  }

  function Verdict(msg: Msg): Phase {
    if ByteLen(msg) > CLIENT_OUTPUT_BUDGET_BYTES then OverBudget else WithinBudget
  }

  /** Two calls of `send_output` have both seen a clean connection and an empty counter. */
  function TwoChecked(s: State, a: Msg, b: Msg): State {
    s.(deliveries := [Delivery(a, Verdict(a)), Delivery(b, Verdict(b))], history := s.history.(offered := [a, b]))
  }

  lemma OffersAccepted(s: State, a: Msg, b: Msg)
    requires !s.dirty && s.deliveries == [] && s.history.offered == []
    requires Fits(s, ByteLen(a)) && Fits(Next(s, Offer(a)), ByteLen(b))
    ensures Next(Next(s, Offer(a)), Offer(b))
         == s.(deliveries := [Delivery(a, SawClean), Delivery(b, SawClean)], history := s.history.(offered := [a, b]))
  {
    OfferedClean(s, a);
    OfferedClean(Next(s, Offer(a)), b);
  }

  lemma OffersFit(s: State, a: Msg, b: Msg)
    requires Fresh(s) && ByteLen(a) + ByteLen(b) < WORD
    ensures Fits(s, ByteLen(a)) && Fits(Next(s, Offer(a)), ByteLen(b))
  {
    FreshFits(s, ByteLen(a));
    FreshFits(s, ByteLen(a) + ByteLen(b));
    OfferedFits(s, a, ByteLen(b));
  }

  lemma FromTwo(s: State, first: Step, second: Step)
    ensures From(s, [first, second]) == Next(Next(s, first), second)
  {
    FromStep(s, [], first);
    FromStep(s, [first], second);
    assert [] + [first] == [first] && [first] + [second] == [first, second];
  }

  lemma TwoOffered(s: State, a: Msg, b: Msg)
    requires Fresh(s) && ByteLen(a) + ByteLen(b) < WORD
    ensures From(s, [Offer(a), Offer(b)])
         == s.(deliveries := [Delivery(a, SawClean), Delivery(b, SawClean)], history := s.history.(offered := [a, b]))
  {
    OffersFit(s, a, b);
    OffersAccepted(s, a, b);
    FromTwo(s, Offer(a), Offer(b));
  }

  lemma BothChecked(s: State, a: Msg, b: Msg)
    requires Fresh(s) && ByteLen(a) + ByteLen(b) < WORD
    ensures From(s, [Offer(a), Offer(b), LoadQueued(0), LoadQueued(1)]) == TwoChecked(s, a, b)
  {
    var two := [Offer(a), Offer(b)];
    TwoOffered(s, a, b);
    FromStep(s, two, LoadQueued(0));
    CheckedEmpty(From(s, two), 0);
    FromStep(s, two + [LoadQueued(0)], LoadQueued(1));
    CheckedEmpty(From(s, two + [LoadQueued(0)]), 1);
    assert two + [LoadQueued(0)] + [LoadQueued(1)] == [Offer(a), Offer(b), LoadQueued(0), LoadQueued(1)];
  }

  lemma DoubleFrom(s: State, m: Msg)
    requires Fresh(s) && ByteLen(m) == CLIENT_OUTPUT_BUDGET_BYTES
    ensures
      var t := From(s, [Offer(m), Offer(m), LoadQueued(0), LoadQueued(1), OutputAdd(0), OutputAdd(1)]);
      t.alive && Outstanding(t, true) == 2 * CLIENT_OUTPUT_BUDGET_BYTES
  {
    var four := [Offer(m), Offer(m), LoadQueued(0), LoadQueued(1)];
    BothChecked(s, m, m);
    FromStep(s, four, OutputAdd(0));
    FromStep(s, four + [OutputAdd(0)], OutputAdd(1));
    assert four + [OutputAdd(0)] + [OutputAdd(1)] == [Offer(m), Offer(m), LoadQueued(0), LoadQueued(1), OutputAdd(0), OutputAdd(1)];
    var t := From(s, four + [OutputAdd(0)] + [OutputAdd(1)]);
    assert t.deliveries == [Delivery(m, Counted)] + [Delivery(m, Counted)];
    TallyOne(Delivery(m, Counted), InCounter);
    TallyAppend([Delivery(m, Counted)], Delivery(m, Counted), InCounter);
  }

  lemma HoleFrom(s: State, big: Msg, small: Msg)
    requires Fresh(s) && ByteLen(small) <= CLIENT_OUTPUT_BUDGET_BYTES < ByteLen(big) && ByteLen(big) + ByteLen(small) < WORD
    ensures
      var t := From(s, [Offer(big), Offer(small), LoadQueued(0), LoadQueued(1), StoreDirty(0), OutputAdd(0), OutputEnqueue(0)]);
      t.history.offered == [big, small] && t.history.output == [small]
  {
    var four := [Offer(big), Offer(small), LoadQueued(0), LoadQueued(1)];
    BothChecked(s, big, small);
    FromStep(s, four, StoreDirty(0));
    FromStep(s, four + [StoreDirty(0)], OutputAdd(0));
    FromStep(s, four + [StoreDirty(0)] + [OutputAdd(0)], OutputEnqueue(0));
    assert four + [StoreDirty(0)] + [OutputAdd(0)] + [OutputEnqueue(0)]
        == [Offer(big), Offer(small), LoadQueued(0), LoadQueued(1), StoreDirty(0), OutputAdd(0), OutputEnqueue(0)];
    assert From(s, four + [StoreDirty(0)]).deliveries == [Delivery(small, WithinBudget)];
  }

  lemma NudgeTwiceFrom(s: State, big: Msg)
    requires Fresh(s) && CLIENT_OUTPUT_BUDGET_BYTES < ByteLen(big) && 2 * ByteLen(big) < WORD
    ensures
      var t := From(s, [Offer(big), Offer(big), LoadQueued(0), LoadQueued(1), StoreDirty(0), StoreDirty(0),
                        RunNudge(0), RunNudge(10 * NANOS)]);
      t.history.grants == [0, 10 * NANOS] && t.history.dirtied == 1
  {
    var four := [Offer(big), Offer(big), LoadQueued(0), LoadQueued(1)];
    BothChecked(s, big, big);
    var five := four + [StoreDirty(0)];
    var six := five + [StoreDirty(0)];
    var seven := six + [RunNudge(0)];
    FromStep(s, four, StoreDirty(0));
    FromStep(s, five, StoreDirty(0));
    FromStep(s, six, RunNudge(0));
    FromStep(s, seven, RunNudge(10 * NANOS));
    assert seven + [RunNudge(10 * NANOS)] == [Offer(big), Offer(big), LoadQueued(0), LoadQueued(1), StoreDirty(0), StoreDirty(0),
                                              RunNudge(0), RunNudge(10 * NANOS)];
    assert From(s, five).deliveries == [Delivery(big, OverBudget)];
    assert From(s, seven).history.grants == [0];
  }

  /** How many calls of `send_output` a run begins. */
  function Offers(steps: seq<Step>): nat {
    if steps == [] then 0 else Offers(Front(steps)) + (if Last(steps).Offer? then 1 else 0)
  }

  lemma StepAddsNoDelivery(s: State, step: Step)
    ensures |Next(s, step).deliveries| <= |s.deliveries| + (if step.Offer? then 1 else 0)
  {
  }

  /** A run that begins at most k calls never has more than k under way. */
  lemma {:induction false} FewOffers(steps: seq<Step>, k: nat)
    requires Offers(steps) <= k
    ensures AtMost(steps, k) && |Run(steps).deliveries| <= Offers(steps)
  {
    if steps != [] {
      FewOffers(Front(steps), k);
      StepAddsNoDelivery(Run(Front(steps)), Last(steps));
    }
  }

  lemma {:induction false} OffersConcat(a: seq<Step>, b: seq<Step>)
    ensures Offers(a + b) == Offers(a) + Offers(b)
  {
    if b == [] {
      assert a + b == a;
    } else {
      OffersConcat(a, Front(b));
      assert Front(a + b) == a + Front(b);
    }
  }

  lemma {:induction false} NoOffers(steps: seq<Step>)
    requires forall i :: 0 <= i < |steps| ==> !steps[i].Offer?
    ensures Offers(steps) == 0
  {
    if steps != [] {
      NoOffers(Front(steps));
    }
  }

  /** Two calls and what follows them have at most two under way. */
  lemma TwoAtMost(a: Msg, b: Msg, rest: seq<Step>, k: nat)
    requires 2 <= k && forall i :: 0 <= i < |rest| ==> !rest[i].Offer?
    ensures AtMost([Offer(a), Offer(b)] + rest, k)
  {
    OffersConcat([Offer(a)], [Offer(b)]);
    OffersConcat([Offer(a), Offer(b)], rest);
    NoOffers(rest);
    assert [Offer(a)] + [Offer(b)] == [Offer(a), Offer(b)];
    OneOffer(a);
    OneOffer(b);
    FewOffers([Offer(a), Offer(b)] + rest, k);
  }

  lemma OneOffer(msg: Msg)
    ensures Offers([Offer(msg)]) == 1
  {
    assert Front([Offer(msg)]) == [];
  }

  /** Runs with two calls at a time: 4 MiB of live output outstanding. */
  lemma TwoOverfill(k: nat) returns (steps: seq<Step>)
    requires 2 <= k
    ensures AtMost(steps, k) && Run(steps).alive && Outstanding(Run(steps), true) == 2 * CLIENT_OUTPUT_BUDGET_BYTES
  {
    var even := Output(CLIENT_OUTPUT_BUDGET_BYTES);
    var rest := [LoadQueued(0), LoadQueued(1), OutputAdd(0), OutputAdd(1)];
    steps := [Offer(even), Offer(even), LoadQueued(0), LoadQueued(1), OutputAdd(0), OutputAdd(1)];
    assert steps == [Offer(even), Offer(even)] + rest;
    TwoAtMost(even, even, rest, k);
    RunIsFromInitial(steps);
    DoubleFrom(Initial, even);
  }

  /** A hole in the output: the first message offered is missing and the second is not. */
  lemma TwoLeaveHole(k: nat) returns (steps: seq<Step>)
    requires 2 <= k
    ensures AtMost(steps, k) && !(Run(steps).history.output <= Run(steps).history.offered)
  {
    var big, small := Output(CLIENT_OUTPUT_BUDGET_BYTES + 1), Output(1);
    var rest := [LoadQueued(0), LoadQueued(1), StoreDirty(0), OutputAdd(0), OutputEnqueue(0)];
    steps := [Offer(big), Offer(small), LoadQueued(0), LoadQueued(1), StoreDirty(0), OutputAdd(0), OutputEnqueue(0)];
    assert steps == [Offer(big), Offer(small)] + rest;
    TwoAtMost(big, small, rest, k);
    RunIsFromInitial(steps);
    HoleFrom(Initial, big, small);
    assert Run(steps).history.output[0] != Run(steps).history.offered[0];
  }

  /** Two grants for one transition. */
  lemma TwoNudge(k: nat) returns (steps: seq<Step>)
    requires 2 <= k
    ensures AtMost(steps, k) && |Run(steps).history.grants| > Run(steps).history.dirtied
  {
    var big := Output(CLIENT_OUTPUT_BUDGET_BYTES + 1);
    var rest := [LoadQueued(0), LoadQueued(1), StoreDirty(0), StoreDirty(0), RunNudge(0), RunNudge(10 * NANOS)];
    steps := [Offer(big), Offer(big), LoadQueued(0), LoadQueued(1), StoreDirty(0), StoreDirty(0),
              RunNudge(0), RunNudge(10 * NANOS)];
    assert steps == [Offer(big), Offer(big)] + rest;
    TwoAtMost(big, big, rest, k);
    RunIsFromInitial(steps);
    NudgeTwiceFrom(Initial, big);
  }

  /** What a second delivery costs: 4 MiB outstanding, a hole in the output, and two grants for one transition. */
  lemma TwoDeliveries()
    ensures exists steps :: AtMost(steps, 2) && Run(steps).alive && Outstanding(Run(steps), true) == 2 * CLIENT_OUTPUT_BUDGET_BYTES
    ensures exists steps :: AtMost(steps, 2) && !(Run(steps).history.output <= Run(steps).history.offered)
    ensures exists steps :: AtMost(steps, 2) && |Run(steps).history.grants| > Run(steps).history.dirtied
  {
    var double := TwoOverfill(2);
    var hole := TwoLeaveHole(2);
    var twice := TwoNudge(2);
  }

  // ---------------------------------------------------------------- exactly one delivery at a time

  /** Live output stays within 2 MiB on every run with at most k deliveries at a time, exactly for k up to one. */
  lemma BudgetExactly(k: nat)
    ensures (forall steps :: AtMost(steps, k) && Run(steps).alive ==> Outstanding(Run(steps), true) <= 2_097_152)
       <==> k <= 1
  {
    if k <= 1 {
      forall steps | AtMost(steps, k) && Run(steps).alive
        ensures Outstanding(Run(steps), true) <= 2_097_152
      {
        OutputWithinBudget(steps, k);
      }
    } else {
      var steps := TwoOverfill(k);
    }
  }

  /** Output has no holes on every run with at most k deliveries at a time, exactly for k up to one. */
  lemma NoHolesExactly(k: nat)
    ensures (forall steps :: AtMost(steps, k) ==> Run(steps).history.output <= Run(steps).history.offered) <==> k <= 1
  {
    if k <= 1 {
      forall steps | AtMost(steps, k) ensures Run(steps).history.output <= Run(steps).history.offered {
        FewerAtMost(steps, k);
        NoHoles(steps);
      }
    } else {
      var steps := TwoLeaveHole(k);
    }
  }

  /** Grants do not outnumber transitions on every run with at most k deliveries at a time, exactly for k up to one. */
  lemma NudgesExactly(k: nat)
    ensures (forall steps :: AtMost(steps, k) ==> |Run(steps).history.grants| <= Run(steps).history.dirtied) <==> k <= 1
  {
    if k <= 1 {
      forall steps | AtMost(steps, k) ensures |Run(steps).history.grants| <= Run(steps).history.dirtied {
        FewerAtMost(steps, k);
        NudgesPerTransition(steps, 1);
      }
    } else {
      var steps := TwoNudge(k);
    }
  }

  lemma {:induction false} FewerAtMost(steps: seq<Step>, k: nat)
    requires AtMost(steps, k) && k <= 1
    ensures AtMost(steps, 1)
  {
    if steps != [] {
      FewerAtMost(Front(steps), k);
    }
  }
}
