/**
 * The outbound handle of a connection as an object, and the broadcast of live output
 * (src/broker.rs).  Each method is proved to be a sequence of steps of the channel model, taken
 * without interruption; the interleavings are the subject of that model.
 */
module Connections {
  import opened Common
  import opened Channel

  /** A control send: add the bytes, then enqueue what was added last. */
  function SendRun(s: State, msg: Msg): State {
    Next(Next(s, ControlAdd(msg)), ControlEnqueue(|s.inflight|))
  }

  /** Live output is dropped while dirty; otherwise the budget decides between turning dirty and sending. */
  function OutputRun(s: State, msg: Msg): State {
    var offered := Next(s, Offer(msg));
    if s.dirty then offered
    else
      var checked := Next(offered, LoadQueued(0));
      if Over(s.queued, msg) then Next(checked, StoreDirty(0)) else Next(Next(checked, OutputAdd(0)), OutputEnqueue(0))
  }

  /** One turn of the writer loop: receive, subtract, and stop on a close or a failed write. */
  function WriterRun(s: State, written: bool): State {
    var received := Next(s, Receive);
    if s.channel != [] && s.channel[0].msg.Close? then Next(received, Stop)
    else if written then Next(received, Subtract)
    else Next(Next(received, Subtract), Stop)
  }

  /** The messages themselves; how they got there is history. */
  function Msgs(items: seq<Item>): (msgs: seq<Msg>)
    ensures |msgs| == |items|
  {
    seq(|items|, i requires 0 <= i < |items| => items[i].msg)
  }

  lemma MsgsAppend(items: seq<Item>, item: Item)
    ensures Msgs(items + [item]) == Msgs(items) + [item.msg]
  {
  }

  lemma MsgsRest(items: seq<Item>)
    requires items != []
    ensures Msgs(items)[0] == items[0].msg && Msgs(items[1..]) == Msgs(items)[1..]
  {
  }

  /** The bytes of some messages. */
  function Total(msgs: seq<Msg>): nat {
    if msgs == [] then 0 else Total(Front(msgs)) + ByteLen(Last(msgs))
  }

  lemma {:induction false} SizeIsTotal(items: seq<Item>)
    ensures Size(items, false) == Total(Msgs(items))
  {
    if items != [] {
      SizeIsTotal(Front(items));
      assert Front(Msgs(items)) == Msgs(Front(items));
    }
  }

  /** The bytes are accounted for, and the counter is that account modulo the word. */
  predicate Sound(s: State) {
    Booked(s) && Wrapped(s)
  }

  lemma StepSound(s: State, step: Step)
    requires Sound(s)
    ensures Sound(Next(s, step))
  {
    StepBooks(s, step);
    BookedNumbers(s);
    StepWraps(s, step);
  }

  /** What the fields of a connection say of the channel between two calls. */
  ghost predicate Mirrors(s: State, queued: nat, dirty: bool, channel: seq<Msg>, alive: bool) {
    && queued == s.queued
    && dirty == s.dirty
    && channel == Msgs(s.channel)
    && alive == s.alive
    && s.deliveries == [] && s.inflight == [] && s.held.None?
    && Sound(s)
  }

  lemma SendMirrored(s: State, queued: nat, dirty: bool, channel: seq<Msg>, alive: bool, msg: Msg)
    requires Mirrors(s, queued, dirty, channel, alive) && Fits(s, ByteLen(msg))
    ensures Mirrors(SendRun(s, msg), (queued + ByteLen(msg)) % WORD, dirty, if alive then channel + [msg] else channel, alive)
  {
    SendSteps(s, msg);
    SendSound(s, msg);
    MsgsAppend(s.channel, Item(msg, false));
  }

  lemma OutputMirrored(s: State, queued: nat, dirty: bool, channel: seq<Msg>, alive: bool, msg: Msg)
      returns (t: State, q: nat, d: bool, c: seq<Msg>)
    requires Mirrors(s, queued, dirty, channel, alive) && Fits(s, ByteLen(msg))
    ensures t == OutputRun(s, msg) && Mirrors(t, q, d, c, alive)
    ensures d == (dirty || Over(queued, msg)) && q == (if d then queued else (queued + ByteLen(msg)) % WORD)
    ensures c == if alive && !d then channel + [msg] else channel
  {
    OutputSteps(s, msg);
    OutputSound(s, msg);
    MsgsAppend(s.channel, Item(msg, true));
    t, q, d, c := OutputRun(s, msg), OutputRun(s, msg).queued, OutputRun(s, msg).dirty, Msgs(OutputRun(s, msg).channel);
  }

  lemma SendSound(s: State, msg: Msg)
    requires Sound(s)
    ensures Sound(SendRun(s, msg))
  {
    StepSound(s, ControlAdd(msg));
    StepSound(Next(s, ControlAdd(msg)), ControlEnqueue(|s.inflight|));
  }

  lemma OutputSound(s: State, msg: Msg)
    requires Sound(s)
    ensures Sound(OutputRun(s, msg))
  {
    var offered := Next(s, Offer(msg));
    var checked := Next(offered, LoadQueued(0));
    StepSound(s, Offer(msg));
    StepSound(offered, LoadQueued(0));
    StepSound(checked, StoreDirty(0));
    StepSound(checked, OutputAdd(0));
    StepSound(Next(checked, OutputAdd(0)), OutputEnqueue(0));
  }

  lemma WriterSound(s: State, written: bool)
    requires Sound(s)
    ensures Sound(WriterRun(s, written))
  {
    var received := Next(s, Receive);
    StepSound(s, Receive);
    StepSound(received, Stop);
    StepSound(received, Subtract);
    StepSound(Next(received, Subtract), Stop);
  }

  /** Nothing has happened yet: the initial state, field by field. */
  predicate Blank(s: State) {
    && s.queued == 0 && !s.dirty && s.lastResync.None? && s.channel == [] && s.alive && s.inflight == []
    && s.deliveries == [] && s.held.None? && s.nudges == 0 && s.clock == 0
    && s.history == History(0, 0, [], [], [], [], 0, 0, [])
  }

  lemma BlankIsInitial(s: State)
    ensures Blank(s) <==> s == Initial
  {
  }

  class ConnTx {
    var queued: nat
    var dirty: bool
    var channel: seq<Msg>
    var alive: bool
    ghost var model: State

    ghost predicate Valid()
      reads this
    {
      Mirrors(model, queued, dirty, channel, alive)
    }

    /** The message fits in memory beside what is outstanding. */
    ghost predicate Ready(msg: Msg)
      reads this
    {
      Valid() && Fits(model, ByteLen(msg))
    }

    constructor ()
      ensures Valid() && Blank(model)
    {
      queued, dirty, channel, alive, model := 0, false, [], true, Initial;
    }

    /** The accesses of `send`: the counter first, then the channel. */
    method Push(msg: Msg) returns (ok: bool)
      modifies this`queued, this`channel
      ensures ok == alive && queued == (old(queued) + ByteLen(msg)) % WORD
      ensures channel == if alive then old(channel) + [msg] else old(channel)
    {
      queued := (queued + ByteLen(msg)) % WORD;
      if alive {
        channel := channel + [msg];
      }
      return alive;
    }

    /** `send` */
    method Send(msg: Msg) returns (ok: bool)
      requires Ready(msg)
      modifies this
      ensures Valid()
      ensures model == SendRun(old(model), msg)
      ensures ok == old(alive) && alive == old(alive) && dirty == old(dirty)
      ensures channel == if ok then old(channel) + [msg] else old(channel)
    {
      SendMirrored(model, queued, dirty, channel, alive, msg);
      model := SendRun(model, msg);
      ok := Push(msg);
    }

    /** The accesses of `send_output`: the dirty flag first, then the budget, then the channel. */
    method Deliver(msg: Msg) returns (nudge: bool)
      modifies this`queued, this`dirty, this`channel
      ensures dirty == (old(dirty) || Over(old(queued), msg)) && nudge == (!old(dirty) && dirty)
      ensures queued == if dirty then old(queued) else (old(queued) + ByteLen(msg)) % WORD
      ensures channel == if alive && !dirty then old(channel) + [msg] else old(channel)
    {
      if dirty {
        return false;
      }
      if (queued + ByteLen(msg)) % WORD > CLIENT_OUTPUT_BUDGET_BYTES {
        dirty := true;
        return true;
      }
      var _ := Push(msg);
      return false;
    }

    /** `send_output`: true exactly when the connection has just turned dirty. */
    method SendOutput(msg: Msg) returns (nudge: bool)
      requires Ready(msg)
      modifies this
      ensures Valid()
      ensures model == OutputRun(old(model), msg)
      ensures dirty == (old(dirty) || Over(old(queued), msg)) && nudge == (!old(dirty) && dirty)
      ensures alive == old(alive)
      ensures channel == if alive && !dirty then old(channel) + [msg] else old(channel)
    {
      ghost var t, q, d, c := OutputMirrored(model, queued, dirty, channel, alive, msg);
      nudge := Deliver(msg);
      assert queued == q && dirty == d && channel == c;
      model := t;
    }

    /** The writer's turn on a received message; the plain subtraction is safe because bytes are accounted. */
    method WriterTurn(written: bool) returns (running: bool)
      requires Valid() && alive && channel != []
      modifies this
      ensures Valid()
      ensures model == WriterRun(old(model), written)
      ensures running == (written && !old(channel[0]).Close?) && alive == running
      ensures queued == old(queued) - ByteLen(old(channel[0]))
      ensures channel == if running then old(channel[1..]) else []
    {
      WriterSteps(model, written);
      WriterSound(model, written);
      MsgsRest(model.channel);
      model := WriterRun(model, written);
      var msg := channel[0];
      channel := channel[1..];
      if msg.Close? {
        alive, channel := false, [];
        return false;
      }
      queued := queued - ByteLen(msg);
      if !written {
        alive, channel := false, [];
        return false;
      }
      return true;
    }

    /** `writer.abort()` once the socket is gone: what is still in the channel is lost, and stays counted. */
    method Abort()
      requires Valid()
      modifies this
      ensures Valid() && !alive && channel == []
      ensures model == Next(old(model), Stop)
      ensures queued == old(queued) && dirty == old(dirty)
    {
      alive, channel := false, [];
      StepSound(model, Stop);
      model := Next(model, Stop);
    }

    /** `clear_dirty` */
    method ClearDirty()
      requires Valid()
      modifies this
      ensures Valid() && !dirty
      ensures model == Next(old(model), Channel.ClearDirty)
      ensures queued == old(queued) && channel == old(channel) && alive == old(alive)
    {
      dirty := false;
      StepSound(model, Channel.ClearDirty);
      model := Next(model, Channel.ClearDirty);
    }

    /** While the receiver lives, output is over the budget exactly if it would take the channel past 2 MiB. */
    lemma OverIsChannel(msg: Msg)
      requires Ready(msg) && alive
      ensures Over(queued, msg) <==> Total(channel) + ByteLen(msg) > 2_097_152
    {
      BookedNumbers(model);
      SizeIsTotal(model.channel);
    }

    /** Between calls, while the receiver lives, the counter is exactly the bytes in the channel. */
    lemma CounterIsChannel()
      requires Valid() && alive
      ensures queued == Total(channel)
    {
      BookedNumbers(model);
      SizeIsTotal(model.channel);
    }
  }

  lemma AddSteps(s: State, msg: Msg)
    requires Fits(s, ByteLen(msg))
    ensures
      var t := Next(s, ControlAdd(msg));
      t == s.(queued := (s.queued + ByteLen(msg)) % WORD, inflight := s.inflight + [Item(msg, false)], history := t.history)
  {
  }

  lemma EnqueueSteps(s: State, items: seq<Item>, item: Item)
    requires s.inflight == items + [item]
    ensures
      var t := Next(s, ControlEnqueue(|items|));
      t == s.(channel := if s.alive then s.channel + [item] else s.channel, inflight := items, history := t.history)
  {
    assert Removed(s.inflight, |items|) == items;
  }

  lemma SendSteps(s: State, msg: Msg)
    requires Fits(s, ByteLen(msg))
    ensures
      var t := SendRun(s, msg);
      && t.deliveries == s.deliveries && t.dirty == s.dirty && t.alive == s.alive && t.inflight == s.inflight && t.held == s.held
      && t.queued == (s.queued + ByteLen(msg)) % WORD
      && t.channel == (if s.alive then s.channel + [Item(msg, false)] else s.channel)
  {
    AddSteps(s, msg);
    EnqueueSteps(Next(s, ControlAdd(msg)), s.inflight, Item(msg, false));
  }

  /** The first two steps of `send_output` on a clean connection. */
  lemma CheckSteps(s: State, msg: Msg)
    requires s.deliveries == [] && !s.dirty && Fits(s, ByteLen(msg))
    ensures
      var t := Next(Next(s, Offer(msg)), LoadQueued(0));
      t == s.(deliveries := [Delivery(msg, if Over(s.queued, msg) then OverBudget else WithinBudget)], history := t.history)
  {
    assert Next(s, Offer(msg)).deliveries == [Delivery(msg, SawClean)];
  }

  /** The rest of it, when the message is within the budget. */
  lemma SentSteps(s: State, msg: Msg)
    requires s.deliveries == [Delivery(msg, WithinBudget)]
    ensures
      var t := Next(Next(s, OutputAdd(0)), OutputEnqueue(0));
      t == s.(deliveries := [], queued := (s.queued + ByteLen(msg)) % WORD,
              channel := if s.alive then s.channel + [Item(msg, true)] else s.channel, history := t.history)
  {
    assert Next(s, OutputAdd(0)).deliveries == [Delivery(msg, Counted)];
  }

  lemma OutputSteps(s: State, msg: Msg)
    requires s.deliveries == [] && Fits(s, ByteLen(msg))
    ensures
      var t := OutputRun(s, msg);
      var sent := !s.dirty && !Over(s.queued, msg);
      && t.deliveries == [] && t.held == s.held && t.inflight == s.inflight
      && t.alive == s.alive
      && t.dirty == (s.dirty || Over(s.queued, msg))
      && t.queued == (if sent then (s.queued + ByteLen(msg)) % WORD else s.queued)
      && t.channel == (if sent && s.alive then s.channel + [Item(msg, true)] else s.channel)
  {
    if !s.dirty {
      CheckSteps(s, msg);
      if !Over(s.queued, msg) {
        SentSteps(Next(Next(s, Offer(msg)), LoadQueued(0)), msg);
      }
    }
  }

  lemma WriterSteps(s: State, written: bool)
    requires Booked(s) && Wrapped(s) && s.alive && s.held.None? && s.channel != []
    ensures
      var t := WriterRun(s, written);
      var msg := s.channel[0].msg;
      && t.deliveries == s.deliveries && t.dirty == s.dirty && t.held.None? && t.inflight == s.inflight
      && t.alive == (written && !msg.Close?)
      && t.channel == (if t.alive then s.channel[1..] else [])
      && ByteLen(msg) <= s.queued && t.queued == s.queued - ByteLen(msg)
  {
    var received := Next(s, Receive);
    assert received == s.(channel := s.channel[1..], held := Some(s.channel[0]));
    HeadIsCounted(s);
  }

  /** The message the writer is about to receive is in the counter. */
  lemma HeadIsCounted(s: State)
    requires Booked(s) && Wrapped(s) && s.alive && s.held.None? && s.channel != []
    ensures ByteLen(s.channel[0].msg) <= s.queued
  {
    WriterBooks(s, Receive);
    BookedNumbers(Act(s, Receive));
  }

  /** A connection has taken the output steps from a given state. */
  ghost predicate Took(c: ConnTx, before: State, msg: Msg)
    reads c
  {
    c.Valid() && c.model == OutputRun(before, msg)
  }

  /**
   * `broadcast_to_clients` for live output: every client takes the output steps once, and the
   * clients nudged are exactly those that turned dirty.
   */
  method BroadcastOutput(clients: seq<ConnTx>, msg: Msg) returns (nudged: set<ConnTx>)
    requires forall i, j :: 0 <= i < j < |clients| ==> clients[i] != clients[j]
    requires forall c :: c in clients ==> c.Ready(msg)
    modifies clients
    ensures forall c :: c in clients ==> Took(c, old(c.model), msg)
    ensures forall c :: c in nudged <==> c in clients && !old(c.dirty) && c.dirty
  {
    nudged := {};
    var n := 0;
    while n < |clients|
      invariant 0 <= n <= |clients|
      invariant forall c :: c in clients[..n] ==> Took(c, old(c.model), msg)
      invariant forall c :: c in clients[n..] ==> c.Ready(msg) && unchanged(c)
      invariant forall c :: c in nudged <==> c in clients[..n] && !old(c.dirty) && c.dirty
    {
      var c := clients[n];
      assert clients[n..] == [c] + clients[n + 1..] && clients[..n + 1] == clients[..n] + [c];
      assert c !in clients[..n] && c !in clients[n + 1..];
      ghost var before := c.model;
      var turned := c.SendOutput(msg);
      assert Took(c, before, msg);
      if turned {
        nudged := nudged + {c};
      }
      n := n + 1;
    }
    assert clients[..n] == clients;
  }
}
