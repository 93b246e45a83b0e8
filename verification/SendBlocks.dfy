/** Who owns the block behind each send: us, msquic until SEND_COMPLETE, nobody (src/transfer/quic_send_buffer.h). */
module SendBlocks {
  import opened ByteStrings
  import opened HeaderCodec
  import opened Runs
  import S = Sender

  // ---------------------------------------------------------------- the ledger

  /** Blocks are numbered as they are allocated; each free is counted. */
  datatype Ledger = Ledger(next: nat, owned: set<nat>, freed: multiset<nat>)

  const EMPTY := Ledger(0, {}, multiset{})

  datatype Op = Send(memory: bool, taken: bool) | Complete(which: nat)

  /** msquic completes what it was given, once. */
  predicate CanHappen(l: Ledger, op: Op) { op.Complete? ==> op.which in l.owned }

  /** stream_send_copy frees a refused block itself; SEND_COMPLETE frees the block it names. */
  function Apply(l: Ledger, op: Op): Ledger {
    match op
    case Send(memory, taken) =>
      if !memory then l
      else if taken then l.(next := l.next + 1, owned := l.owned + {l.next})
      else l.(next := l.next + 1, freed := l.freed + multiset{l.next})
    case Complete(which) => l.(owned := l.owned - {which}, freed := l.freed + multiset{which})
  }

  function Operations(): (Ledger, Op) -> Option<Ledger> {
    (l: Ledger, op: Op) => if CanHappen(l, op) then Some(Apply(l, op)) else None
  }

  /** Every allocated block is owned by msquic and not freed, or freed exactly once. */
  predicate FreedOnce(l: Ledger) {
    && (forall i <- l.owned :: i < l.next)
    && (forall i <- l.freed :: i < l.next)
    && (forall i: nat | i < l.next :: l.freed[i] == if i in l.owned then 0 else 1)
  }

  lemma ApplyKeeps(l: Ledger, op: Op)
    requires FreedOnce(l) && CanHappen(l, op)
    ensures FreedOnce(Apply(l, op))
  {
    assert l.next !in l.owned && l.next !in l.freed;
  }

  /** Whatever is sent, refused and completed, no block is freed twice, none is lost, and none is freed while msquic
      still owns it. */
  lemma {:induction false} BlocksFreedOnce(ops: seq<Op>)
    requires Run(Operations(), EMPTY, ops).Some?
    ensures FreedOnce(Run(Operations(), EMPTY, ops).value)
  {
    hide Apply, CanHappen;
    if ops != [] {
      LastStep(Operations(), EMPTY, ops);
      BlocksFreedOnce(ops[..|ops| - 1]);
      ApplyKeeps(Run(Operations(), EMPTY, ops[..|ops| - 1]).value, ops[|ops| - 1]);
    }
  }

  // ---------------------------------------------------------------- the sender's blocks

  /** A sender and its blocks. */
  datatype Books = Books(c: S.State, l: Ledger)

  /** What an event of the sender does to blocks; `which` is the block a SEND_COMPLETE names. */
  function OpOf(e: S.Event, which: nat): Option<Op> {
    match e
    case SendHeader(sendOk) => Some(Send(true, sendOk))
    case SendEmptyFin(sendOk) => Some(Send(true, sendOk))
    case ReadChunk(data, sendOk) => if data == [] then None else Some(Send(true, sendOk))
    case SendComplete => Some(Complete(which))
    case _ => None
  }

  datatype Step = Step(e: S.Event, which: nat)

  predicate StepEnabled(size: nat, b: Books, s: Step) {
    S.Enabled(b.c, size, s.e) && (s.e.SendComplete? ==> s.which in b.l.owned)
  }

  function StepNext(header: Header, b: Books, s: Step): Books
    requires StepEnabled(header.size, b, s)
  {
    var op := OpOf(s.e, s.which);
    Books(S.Next(b.c, header, s.e), if op.None? then b.l else Apply(b.l, op.value))
  }

  function BookSteps(header: Header): (Books, Step) -> Option<Books> {
    (b: Books, s: Step) => if StepEnabled(header.size, b, s) then Some(StepNext(header, b, s)) else None
  }

  function RunBooks(header: Header, steps: seq<Step>): Option<Books> {
    Run(BookSteps(header), Books(S.READY, EMPTY), steps)
  }

  predicate Waiting(p: S.Phase) { p == S.HeaderWait || p == S.ChunkWait }

  /** At most the latest block is outstanding, and send_done_ says whether it is. */
  predicate OneBlock(b: Books) {
    && FreedOnce(b.l) && |b.l.owned| == b.c.inFlight <= 1
    && (forall i <- b.l.owned :: i + 1 == b.l.next)
    && (Waiting(b.c.phase) ==> b.l.next > 0) && Settled(b.c)
  }

  lemma SendKeeps(l: Ledger, taken: bool)
    requires FreedOnce(l) && l.owned == {}
    ensures var m := Apply(l, Send(true, taken));
            && FreedOnce(m) && m.next == l.next + 1 && m.owned == if taken then {l.next} else {}
  {
    ApplyKeeps(l, Send(true, taken));
  }

  lemma CompleteKeeps(l: Ledger, which: nat)
    requires FreedOnce(l) && which in l.owned && |l.owned| == 1
    ensures var m := Apply(l, Complete(which));
            && FreedOnce(m) && m.next == l.next && m.owned == {} && m.freed[which] == 1
  {
    ApplyKeeps(l, Complete(which));
    assert |l.owned - {which}| == 0;
  }

  /** What each event does to phase, send_done_ and the count of blocks. */
  predicate SendsOnly(c: S.State, e: S.Event, d: S.State) {
    match OpOf(e, 0)
    case None =>
      && d.inFlight == c.inFlight && (Waiting(d.phase) ==> d.phase == c.phase && d.sendDone == c.sendDone)
      && (!Waiting(d.phase) && !d.phase.Ended? ==> d.inFlight == 0)
    case Some(Complete(_)) => d.inFlight == c.inFlight - 1 && d.sendDone && d.phase == c.phase
    case Some(Send(_, taken)) =>
      && c.inFlight == 0
      && (if taken then d.inFlight == 1 && Waiting(d.phase) && !d.sendDone else d.inFlight == 0 && d.phase.Ended?)
  }

  predicate SameBlocks(c: S.State, d: S.State) { d.inFlight == c.inFlight && d.sendDone == c.sendDone }

  predicate Attempted(c: S.State, d: S.State, sendOk: bool) {
    if sendOk then d.inFlight == c.inFlight + 1 && !d.sendDone && Waiting(d.phase)
    else d.inFlight == c.inFlight && d.phase.Ended?
  }

  lemma Attempts(c: S.State, header: Header, data: Bytes, sendOk: bool)
    ensures Attempted(c, S.HeaderSent(c, header, sendOk), sendOk) && Attempted(c, S.EmptySent(c, sendOk), sendOk)
    ensures data != [] ==> Attempted(c, S.ChunkSent(c, data, header.size, sendOk), sendOk)
  {
    hide Encode;
  }

  /** Steps between sends end up in no wait for a send. */
  lemma Moves(c: S.State, openOk: bool)
    ensures Moved(c, S.DecisionTaken(c)) && Moved(c, S.SourceOpened(c, openOk))
  {
  }

  lemma MovesOn(c: S.State, size: nat, sendOk: bool)
    ensures Moved(c, S.AckTaken(c)) && Moved(c, S.SendAwaited(c, size)) && Moved(c, S.ChunkSent(c, [], size, sendOk))
  {
  }

  predicate Moved(c: S.State, d: S.State) { SameBlocks(c, d) && !Waiting(d.phase) }

  /** Blocks in flight go with a wait for a send. */
  predicate Settled(c: S.State) {
    && (Waiting(c.phase) ==> (c.sendDone <==> c.inFlight == 0))
    && (!Waiting(c.phase) && !c.phase.Ended? ==> c.inFlight == 0)
  }

  lemma SendOnly(header: Header, c: S.State, e: S.Event)
    requires S.Enabled(c, header.size, e) && OpOf(e, 0).Some? && Settled(c)
    ensures SendsOnly(c, e, S.Next(c, header, e))
  {
    hide S.HeaderSent, S.EmptySent, S.ChunkSent, S.Received, S.PeerFinished, S.SendAwaited, S.DecisionTaken,
      S.SourceOpened, S.AckTaken, S.Abandoned;
    match e
    case SendHeader(sendOk) => Attempts(c, header, [], sendOk);
    case SendEmptyFin(sendOk) => Attempts(c, header, [], sendOk);
    case ReadChunk(data, sendOk) => Attempts(c, header, data, sendOk);
    case SendComplete =>
  }

  lemma NothingSent(header: Header, c: S.State, e: S.Event)
    requires S.Enabled(c, header.size, e) && OpOf(e, 0).None? && Settled(c)
    ensures SendsOnly(c, e, S.Next(c, header, e))
  {
    hide S.HeaderSent, S.EmptySent, S.ChunkSent, S.Received, S.PeerFinished, S.SendAwaited, S.DecisionTaken,
      S.SourceOpened, S.AckTaken;
    match e
    case Receive(bytes) => S.ReceivedOnlyReads(c, bytes);
    case PeerFin => S.FinishedOnlyReads(c);
    case OpenSource(openOk) => Moves(c, openOk);
    case ReadChunk(_, sendOk) => MovesOn(c, header.size, sendOk);
    case DecisionWake => Moves(c, true);
    case SendWake => MovesOn(c, header.size, true);
    case AckWake => MovesOn(c, header.size, true);
    case _ =>
  }

  lemma StepKeeps(header: Header, b: Books, s: Step)
    requires OneBlock(b) && StepEnabled(header.size, b, s)
    ensures OneBlock(StepNext(header, b, s))
  {
    hide S.Next, S.Enabled, FreedOnce, Apply;
    var op := OpOf(s.e, s.which);
    if op.None? {
      NothingSent(header, b.c, s.e);
      return;
    }
    SendOnly(header, b.c, s.e);
    if op.value.Send? {
      SendKeeps(b.l, op.value.taken);
    } else {
      CompleteKeeps(b.l, s.which);
    }
  }

  lemma {:induction false} RunsKeepOneBlock(header: Header, steps: seq<Step>)
    requires RunBooks(header, steps).Some?
    ensures OneBlock(RunBooks(header, steps).value)
  {
    hide StepNext, StepEnabled;
    if steps != [] {
      LastStep(BookSteps(header), Books(S.READY, EMPTY), steps);
      RunsKeepOneBlock(header, steps[..|steps| - 1]);
      StepKeeps(header, RunBooks(header, steps[..|steps| - 1]).value, steps[|steps| - 1]);
    }
  }

  /** When stream_send_and_wait returns true, it is the block of that very send that has come back and been freed. */
  lemma {:induction false} SendWakeMeansThisSend(header: Header, steps: seq<Step>)
    requires RunBooks(header, steps).Some?
    requires S.Enabled(RunBooks(header, steps).value.c, header.size, S.SendWake)
    ensures var l := RunBooks(header, steps).value.l;
            l.next > 0 && l.owned == {} && l.freed[l.next - 1] == 1
  {
    RunsKeepOneBlock(header, steps);
  }

  // ---------------------------------------------------------------- stream_send_copy

  const QUIC_BUFFER_SIZE := 16

  /** One allocation: the QUIC_BUFFER with its uint32_t length, and the payload behind it. */
  class Block {
    const raw: array<byte>
    var length: nat

    constructor (size: nat)
      ensures fresh(raw) && raw.Length == QUIC_BUFFER_SIZE + size && length == 0
    {
      raw := new byte[QUIC_BUFFER_SIZE + size](_ => '?');
      length := 0;
    }

    ghost predicate Valid()
      reads this
    {
      QUIC_BUFFER_SIZE + length <= raw.Length
    }

    /** What msquic reads: `length` bytes from the payload. */
    function Payload(): Bytes
      requires Valid()
      reads this, raw
    {
      raw[QUIC_BUFFER_SIZE..QUIC_BUFFER_SIZE + length]
    }
  }

  /** What a uint32_t length leaves of the data. */
  function Sendable(data: Bytes): Bytes { data[..|data| % 0x1_0000_0000] }

  class Sends {
    var next: nat
    var owned: map<nat, Block>
    var freed: multiset<nat>

    ghost function Books(): Ledger
      reads this
    {
      Ledger(next, owned.Keys, freed)
    }

    constructor ()
      ensures Books() == EMPTY
    {
      next, owned, freed := 0, map[], multiset{};
    }

    /** stream_send_copy: the block handed over holds a copy of the data; a refused block is freed here. */
    method StreamSendCopy(data: Bytes, memory: bool, taken: bool) returns (ok: bool)
      requires FreedOnce(Books())
      modifies this
      ensures Books() == Apply(old(Books()), Send(memory, taken)) && FreedOnce(Books())
      ensures ok == (memory && taken)
      ensures forall i <- old(owned) :: i in owned && owned[i] == old(owned)[i]
      ensures ok ==> old(next) in owned && fresh(owned[old(next)]) && owned[old(next)].Valid()
                     && owned[old(next)].Payload() == Sendable(data)
    {
      ApplyKeeps(Books(), Send(memory, taken));
      if !memory {
        return false;
      }
      var block := new Block(|data|);
      block.length := |data| % 0x1_0000_0000;
      forall i | 0 <= i < |data| {
        block.raw[QUIC_BUFFER_SIZE + i] := data[i];
      }
      assert block.Payload() == Sendable(data);
      if taken {
        owned := owned[next := block];
      } else {
        freed := freed + multiset{next};
      }
      next := next + 1;
      return taken;
    }

    /** SEND_COMPLETE: std::free on the client context. */
    method OnSendComplete(which: nat)
      requires FreedOnce(Books()) && which in owned
      modifies this
      ensures Books() == Apply(old(Books()), Complete(which)) && FreedOnce(Books())
      ensures forall i <- owned :: i in old(owned) && owned[i] == old(owned)[i]
    {
      ApplyKeeps(Books(), Complete(which));
      freed := freed + multiset{which};
      owned := owned - {which};
    }
  }

  /** The copy is whole exactly when its length fits in 32 bits, as that of every chunk and every reply does. */
  lemma {:induction false} CopyIsWhole(data: Bytes)
    ensures Sendable(data) == data <==> |data| < 0x1_0000_0000
  {
    if Sendable(data) == data {
      assert |data| % 0x1_0000_0000 == |data|;
    }
  }
}
