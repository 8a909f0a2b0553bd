/** Acknowledging prompts as their lines reach the agent (crates/agent/src/acp_session.rs, `ObservedWriter`). */
module PromptAck {
  import opened ByteLines

  /** What the inner writer answered to one `poll_write`. */
  datatype Poll = Ready(written: nat) | Pending | Failed

  /** The unfinished line, the ids waiting for their prompt line and the ids acknowledged. */
  datatype Ack = Ack(line: seq<Byte>, pending: seq<nat>, acked: seq<nat>)

  const INITIAL := Ack([], [], [])

  function Push(a: Ack, id: nat): Ack {
    a.(pending := a.pending + [id])
  }

  function FinishLine(a: Ack, isPrompt: seq<Byte> -> bool): Ack {
    if !isPrompt(a.line) || a.pending == [] then a.(line := [])
    else Ack([], a.pending[1..], a.acked + [a.pending[0]])
  }

  function Feed(a: Ack, b: Byte, isPrompt: seq<Byte> -> bool): Ack {
    if b == NEWLINE then FinishLine(a, isPrompt) else a.(line := a.line + [b])
  }

  function FeedAll(a: Ack, bytes: seq<Byte>, isPrompt: seq<Byte> -> bool): Ack {
    if bytes == [] then a else Feed(FeedAll(a, bytes[..|bytes| - 1], isPrompt), bytes[|bytes| - 1], isPrompt)
  }

  // ---------------------------------------------------------------- the writer

  /** The ids `SendTurn` queued, shared by the command handler and the writer. */
  class Deliveries {
    var queue: seq<nat>

    constructor ()
      ensures queue == []
    {
      queue := [];
    }

    method PushBack(id: nat)
      modifies this
      ensures queue == old(queue) + [id]
    {
      queue := queue + [id];
    }
  }

  class ObservedWriter {
    var line: seq<Byte>
    /** Every `TurnAccepted` sent so far. */
    var acked: seq<nat>
    const deliveries: Deliveries
    /** Whether a line is a JSON-RPC message with the method `session/prompt`. */
    const isPrompt: seq<Byte> -> bool

    constructor (deliveries: Deliveries, isPrompt: seq<Byte> -> bool)
      ensures this.deliveries == deliveries && this.isPrompt == isPrompt
      ensures View() == Ack([], deliveries.queue, [])
    {
      this.deliveries, this.isPrompt := deliveries, isPrompt;
      line, acked := [], [];
    }

    function View(): Ack
      reads this, deliveries
    {
      Ack(line, deliveries.queue, acked)
    }

    method FinishCurrentLine()
      modifies this`line, this`acked, deliveries
      ensures View() == FinishLine(old(View()), isPrompt)
    {
      var wasPrompt := isPrompt(line);
      line := [];
      if !wasPrompt {
        return;
      }
      if deliveries.queue != [] {
        acked := acked + [deliveries.queue[0]];
        deliveries.queue := deliveries.queue[1..];
      }
    }

    /** Only the bytes the inner writer took are looked at; anything else passes through. */
    method PollWrite(buf: seq<Byte>, inner: Poll) returns (result: Poll)
      requires inner.Ready? ==> inner.written <= |buf|
      modifies this`line, this`acked, deliveries
      ensures result == inner
      ensures View() == if inner.Ready? then FeedAll(old(View()), buf[..inner.written], isPrompt) else old(View())
    {
      if !inner.Ready? {
        return inner;
      }
      var taken := buf[..inner.written];
      assert taken[..0] == [];
      for i := 0 to |taken|
        invariant View() == FeedAll(old(View()), taken[..i], isPrompt)
      {
        assert taken[..i + 1][..i] == taken[..i];
        if taken[i] == NEWLINE {
          FinishCurrentLine();
        } else {
          line := line + [taken[i]];
        }
      }
      assert taken[..|taken|] == taken;
      return inner;
    }
  }

  // ---------------------------------------------------------------- whole runs

  /** A turn sent, or the bytes one write got through. */
  datatype Op = Sent(id: nat) | Wrote(bytes: seq<Byte>)

  /** A run byte by byte. */
  datatype Tick = SentTick(id: nat) | ByteTick(b: Byte)

  function Run(ops: seq<Op>, isPrompt: seq<Byte> -> bool): Ack {
    if ops == [] then INITIAL
    else
      var a := Run(ops[..|ops| - 1], isPrompt);
      match ops[|ops| - 1]
      case Sent(id) => Push(a, id)
      case Wrote(bytes) => FeedAll(a, bytes, isPrompt)
  }

  function RunTicks(ticks: seq<Tick>, isPrompt: seq<Byte> -> bool): Ack {
    if ticks == [] then INITIAL
    else
      var a := RunTicks(ticks[..|ticks| - 1], isPrompt);
      match ticks[|ticks| - 1]
      case SentTick(id) => Push(a, id)
      case ByteTick(b) => Feed(a, b, isPrompt)
  }

  function ByteTicks(bytes: seq<Byte>): seq<Tick> {
    if bytes == [] then [] else ByteTicks(bytes[..|bytes| - 1]) + [ByteTick(bytes[|bytes| - 1])]
  }

  function Ticks(ops: seq<Op>): seq<Tick> {
    if ops == [] then []
    else
      Ticks(ops[..|ops| - 1]) + match ops[|ops| - 1]
        case Sent(id) => [SentTick(id)]
        case Wrote(bytes) => ByteTicks(bytes)
  }

  lemma {:induction false} FeedAllTicks(ticks: seq<Tick>, bytes: seq<Byte>, isPrompt: seq<Byte> -> bool)
    ensures RunTicks(ticks + ByteTicks(bytes), isPrompt) == FeedAll(RunTicks(ticks, isPrompt), bytes, isPrompt)
  {
    if bytes == [] {
      assert ticks + [] == ticks;
    } else {
      var n := |bytes| - 1;
      FeedAllTicks(ticks, bytes[..n], isPrompt);
      var all := ticks + ByteTicks(bytes);
      assert all[..|all| - 1] == ticks + ByteTicks(bytes[..n]);
    }
  }

  /** How the stream was cut into writes, partial or not, makes no difference. */
  lemma {:induction false} OnlyTheStreamMatters(ops: seq<Op>, isPrompt: seq<Byte> -> bool)
    ensures Run(ops, isPrompt) == RunTicks(Ticks(ops), isPrompt)
  {
    if ops != [] {
      var n := |ops| - 1;
      OnlyTheStreamMatters(ops[..n], isPrompt);
      if ops[n].Sent? {
        assert Ticks(ops)[..|Ticks(ops)| - 1] == Ticks(ops[..n]);
      } else {
        FeedAllTicks(Ticks(ops[..n]), ops[n].bytes, isPrompt);
      }
    }
  }

  /** The ids sent, in order. */
  function SentIds(ticks: seq<Tick>): seq<nat> {
    if ticks == [] then []
    else if ticks[|ticks| - 1].SentTick? then SentIds(ticks[..|ticks| - 1]) + [ticks[|ticks| - 1].id]
    else SentIds(ticks[..|ticks| - 1])
  }

  /** The bytes that reached the agent. */
  function Stream(ticks: seq<Tick>): seq<Byte> {
    if ticks == [] then []
    else if ticks[|ticks| - 1].ByteTick? then Stream(ticks[..|ticks| - 1]) + [ticks[|ticks| - 1].b]
    else Stream(ticks[..|ticks| - 1])
  }

  function Count(lines: seq<seq<Byte>>, isPrompt: seq<Byte> -> bool): nat {
    if lines == [] then 0 else Count(lines[..|lines| - 1], isPrompt) + (if isPrompt(lines[|lines| - 1]) then 1 else 0)
  }

  /** How many prompt lines the agent has received in full. */
  function PromptLines(ticks: seq<Tick>, isPrompt: seq<Byte> -> bool): nat {
    Count(Complete(Stream(ticks)), isPrompt)
  }

  /** At every point of the run no more prompt lines were received than ids had been queued. */
  predicate SentInTime(ticks: seq<Tick>, isPrompt: seq<Byte> -> bool) {
    && PromptLines(ticks, isPrompt) <= |SentIds(ticks)|
    && (ticks != [] ==> SentInTime(ticks[..|ticks| - 1], isPrompt))
  }

  lemma PromptLinesStep(ticks: seq<Tick>, isPrompt: seq<Byte> -> bool)
    requires ticks != []
    ensures var init, last := ticks[..|ticks| - 1], ticks[|ticks| - 1];
      PromptLines(ticks, isPrompt) == PromptLines(init, isPrompt)
        + if last.ByteTick? && last.b == NEWLINE && isPrompt(Unfinished(Stream(init))) then 1 else 0
  {
    var init, last := ticks[..|ticks| - 1], ticks[|ticks| - 1];
    if last.ByteTick? {
      CompleteByte(Stream(init), last.b);
      var done, tail := Complete(Stream(init)), Unfinished(Stream(init));
      assert (done + [tail])[..|done|] == done;
      assert Count(done + [tail], isPrompt) == Count(done, isPrompt) + if isPrompt(tail) then 1 else 0;
    }
  }

  lemma {:induction false} LineIsUnfinished(ticks: seq<Tick>, isPrompt: seq<Byte> -> bool)
    ensures RunTicks(ticks, isPrompt).line == Unfinished(Stream(ticks))
  {
    if ticks != [] {
      LineIsUnfinished(ticks[..|ticks| - 1], isPrompt);
      if ticks[|ticks| - 1].ByteTick? {
        CompleteByte(Stream(ticks[..|ticks| - 1]), ticks[|ticks| - 1].b);
      }
    }
  }

  lemma FinishKeepsIds(a: Ack, isPrompt: seq<Byte> -> bool)
    ensures var a' := FinishLine(a, isPrompt);
      && a'.acked + a'.pending == a.acked + a.pending
      && |a'.acked| == |a.acked| + if isPrompt(a.line) && a.pending != [] then 1 else 0
  {
    assert a.pending != [] ==> a.acked + a.pending == (a.acked + [a.pending[0]]) + a.pending[1..];
  }

  /** In every run the acknowledged ids followed by the waiting ones are the ids sent, in order. */
  lemma {:induction false} IdsAreConserved(ticks: seq<Tick>, isPrompt: seq<Byte> -> bool)
    ensures var a := RunTicks(ticks, isPrompt); a.acked + a.pending == SentIds(ticks)
  {
    if ticks != [] {
      var a := RunTicks(ticks[..|ticks| - 1], isPrompt);
      IdsAreConserved(ticks[..|ticks| - 1], isPrompt);
      FinishKeepsIds(a, isPrompt);
      var last := ticks[|ticks| - 1];
      assert last.SentTick? ==> a.acked + (a.pending + [last.id]) == (a.acked + a.pending) + [last.id];
    }
  }

  /**
   * Every prompt line received was acknowledged exactly when every id was queued in time;
   * an id queued late leaves its line, and one line for good, without acknowledgement.
   */
  lemma {:induction false} EveryLineAckedIffInTime(ticks: seq<Tick>, isPrompt: seq<Byte> -> bool)
    ensures |RunTicks(ticks, isPrompt).acked| <= PromptLines(ticks, isPrompt)
    ensures |RunTicks(ticks, isPrompt).acked| == PromptLines(ticks, isPrompt) <==> SentInTime(ticks, isPrompt)
  {
    if ticks != [] {
      var init := ticks[..|ticks| - 1];
      var a := RunTicks(init, isPrompt);
      EveryLineAckedIffInTime(init, isPrompt);
      LineIsUnfinished(init, isPrompt);
      IdsAreConserved(init, isPrompt);
      IdsAreConserved(ticks, isPrompt);
      PromptLinesStep(ticks, isPrompt);
      FinishKeepsIds(a, isPrompt);
    }
  }

  /** The k-th prompt line's acknowledgement, in a run whose ids were all queued in time. */
  lemma LineAcksItsTurn(ops: seq<Op>, isPrompt: seq<Byte> -> bool)
    requires SentInTime(Ticks(ops), isPrompt)
    ensures var ticks := Ticks(ops);
      && PromptLines(ticks, isPrompt) <= |SentIds(ticks)|
      && Run(ops, isPrompt).acked == SentIds(ticks)[..PromptLines(ticks, isPrompt)]
  {
    OnlyTheStreamMatters(ops, isPrompt);
    IdsAreConserved(Ticks(ops), isPrompt);
    EveryLineAckedIffInTime(Ticks(ops), isPrompt);
    var a := Run(ops, isPrompt);
    assert (a.acked + a.pending)[..|a.acked|] == a.acked;
  }
}
