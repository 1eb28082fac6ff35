/** The bridge between log writers and the background writer thread: a
    bounded channel of optional log buffers (`None` asks the thread to stop)
    and a bounded free list through which the thread hands used buffers back
    to the writers for reuse. */
module LogBridge {
  import opened Terminal

  /** The bound of both channels. */
  const Capacity: nat := 1024

  /** A heap buffer, identified by its allocation. */
  datatype Buffer = Buffer(id: nat, data: Bytes)

  // ---------------------------------------------------------------------------
  // Channel results and how the bridge maps them
  // ---------------------------------------------------------------------------

  /** The outcome of a blocking receive on the standard channel: a message,
      or the error that every sender is gone and nothing is queued. */
  datatype StdRecv = Received(msg: Option<Buffer>) | RecvError

  datatype StdTryRecvError = StdEmpty | Disconnected

  /** The outcome of a non-blocking receive on the standard channel. */
  datatype StdTryRecv = TryReceived(msg: Option<Buffer>) | TryFailed(err: StdTryRecvError)

  /** Why the bridge's non-blocking receive produced no entry. */
  datatype TryRecvError = Empty | Closed

  /** What the bridge's non-blocking receive produces. */
  datatype Polled = Ready(buffer: Buffer) | NotReady(err: TryRecvError)

  /** An empty channel stays empty for now; a disconnected one is closed. */
  function TryRecvErrorFrom(e: StdTryRecvError): (r: TryRecvError)
    ensures r == Closed <==> e == Disconnected
  {
    match e
    case StdEmpty => Empty
    case Disconnected => Closed
  }

  /** A blocking receive yields a buffer only for a queued `Some`; both the
      stop message and a disconnected channel end the stream. */
  function RecvMap(r: StdRecv): (e: Option<Buffer>)
    ensures e.Some? <==> r.Received? && r.msg.Some?
    ensures e.Some? ==> e.value == r.msg.value
  {
    if r.Received? then r.msg else None
  }

  /** A non-blocking receive yields a buffer only for a queued `Some`; the
      stop message and a disconnected channel both read as closed, an empty
      channel as empty. */
  function TryRecvMap(r: StdTryRecv): (p: Polled)
    ensures p.Ready? <==> r.TryReceived? && r.msg.Some?
    ensures p.Ready? ==> p.buffer == r.msg.value
    ensures p == NotReady(Closed) <==> r == TryReceived(None) || r == TryFailed(Disconnected)
    ensures p == NotReady(Empty) <==> r == TryFailed(StdEmpty)
  {
    match r
    case TryFailed(e) => NotReady(TryRecvErrorFrom(e))
    case TryReceived(m) => if m.Some? then Ready(m.value) else NotReady(Closed)
  }

  /** The standard channel's blocking receive on `queue`, defined when it
      does not block: something is queued or every sender is gone. */
  function StdRecvOf(queue: seq<Option<Buffer>>, sendersAlive: bool): StdRecv
    requires |queue| > 0 || !sendersAlive
  {
    if |queue| > 0 then Received(queue[0]) else RecvError
  }

  /** The standard channel's non-blocking receive on `queue`. */
  function StdTryRecvOf(queue: seq<Option<Buffer>>, sendersAlive: bool): StdTryRecv
  {
    if |queue| > 0 then TryReceived(queue[0])
    else if sendersAlive then TryFailed(StdEmpty)
    else TryFailed(Disconnected)
  }

  /** Whenever the blocking receive would not block, the two receives agree:
      one yields a buffer exactly when the other does, and the blocking one
      ends the stream exactly when the other reports the bridge closed. */
  lemma RecvAgreesWithTryRecv(queue: seq<Option<Buffer>>, sendersAlive: bool)
    requires |queue| > 0 || !sendersAlive
    ensures var e := RecvMap(StdRecvOf(queue, sendersAlive));
      var p := TryRecvMap(StdTryRecvOf(queue, sendersAlive));
      && (e.Some? <==> p.Ready?)
      && (e.Some? ==> p.buffer == e.value)
      && (e.None? <==> p == NotReady(Closed))
  {
  }

  // ---------------------------------------------------------------------------
  // Ownership of buffers
  // ---------------------------------------------------------------------------

  /** Identities of the buffers carried by queued messages. */
  function QueueIds(q: seq<Option<Buffer>>): multiset<nat>
  {
    if q == [] then multiset{} else (if q[0].Some? then multiset{q[0].value.id} else multiset{}) + QueueIds(q[1..])
  }

  lemma {:induction false} QueueIdsAppend(q: seq<Option<Buffer>>, m: Option<Buffer>)
    ensures QueueIds(q + [m]) == QueueIds(q) + (if m.Some? then multiset{m.value.id} else multiset{})
  {
    if q != [] {
      assert (q + [m])[1..] == q[1..] + [m];
      QueueIdsAppend(q[1..], m);
    } else {
      assert [m][1..] == [];
    }
  }

  /** Identities of the buffers waiting in the free list. */
  function PoolIds(p: seq<Buffer>): multiset<nat>
  {
    if p == [] then multiset{} else multiset{p[0].id} + PoolIds(p[1..])
  }

  lemma {:induction false} PoolIdsAppend(p: seq<Buffer>, b: Buffer)
    ensures PoolIds(p + [b]) == PoolIds(p) + multiset{b.id}
  {
    if p != [] {
      assert (p + [b])[1..] == p[1..] + [b];
      PoolIdsAppend(p[1..], b);
    } else {
      assert [b][1..] == [];
    }
  }

  /** Each buffer identity occurs at most once, and all of them were
      allocated before `next`. */
  ghost predicate Unique(m: multiset<nat>, next: nat)
  {
    (forall x :: m[x] <= 1) && (forall x | x in m :: x < next)
  }

  /** Freeing a buffer keeps identities unique. */
  lemma UniqueRemove(m: multiset<nat>, x: nat, next: nat)
    requires Unique(m, next)
    ensures Unique(m - multiset{x}, next)
  {
    forall y | y in m - multiset{x} ensures y < next {
      assert y in m;
    }
  }

  /** Allocating the next identity keeps identities unique. */
  lemma UniqueAllocate(m: multiset<nat>, next: nat)
    requires Unique(m, next)
    ensures Unique(m + multiset{next}, next + 1)
  {
    assert next !in m;
  }

  /** The state both channels share: the queued log messages, the free list,
      whether the receiving end is alive, how many writer handles exist, what
      fell back to standard output, and the allocation counter. `lent` holds
      the buffers the background thread holds as entries. */
  class Channels {
    var queue: seq<Option<Buffer>>
    var pool: seq<Buffer>
    var receiverAlive: bool
    var senders: nat
    var printed: seq<Bytes>
    var nextId: nat
    ghost var lent: multiset<nat>

    /** Every buffer that is still alive, wherever it is. */
    ghost function Owned(): multiset<nat>
      reads this
    {
      QueueIds(queue) + PoolIds(pool) + lent
    }

    /** Both channels respect their bound, and every live buffer sits in
        exactly one place: the message queue, the free list, or an entry. */
    ghost predicate Valid()
      reads this
    {
      |queue| <= Capacity && |pool| <= Capacity && Unique(Owned(), nextId)
    }

    constructor ()
      ensures Valid() && fresh(this)
      ensures queue == [] && pool == [] && receiverAlive && senders == 1
      ensures printed == [] && nextId == 0 && lent == multiset{}
    {
      queue, pool, receiverAlive, senders, printed, nextId := [], [], true, 1, [], 0;
      lent := multiset{};
    }
  }

  // ---------------------------------------------------------------------------
  // Writer side
  // ---------------------------------------------------------------------------

  /** What `write` hands over: its bytes in a recycled buffer when the free
      list has one, otherwise in a freshly allocated buffer. */
  function Fill(pool: seq<Buffer>, nextId: nat, buf: Bytes): (b: Buffer)
    ensures b.data == buf
    ensures b.id == (if |pool| > 0 then pool[0].id else nextId)
  {
    if |pool| > 0 then Buffer(pool[0].id, buf) else Buffer(nextId, buf)
  }

  /** Standard output receives a payload as text when it is valid UTF-8 and
      as the empty string otherwise. */
  function PrintedText(data: Bytes): (t: Bytes)
    ensures t == data || t == []
    ensures t == data <==> ValidUtf8(data)
  {
    if ValidUtf8(data) then data else []
  }

  /** A write keeps every live buffer in exactly one place: a recycled
      buffer moves from the free list to the queue, a new one enters the
      queue with a fresh identity, and one that falls back to standard
      output is freed. */
  lemma WriteOwnership(q: seq<Option<Buffer>>, p: seq<Buffer>, l: multiset<nat>, next: nat, buf: Bytes, alive: bool)
    requires Unique(QueueIds(q) + PoolIds(p) + l, next)
    ensures var b := Fill(p, next, buf);
      var p' := if |p| > 0 then p[1..] else [];
      var next' := next + (if |p| > 0 then 0 else 1);
      var q' := q + (if alive then [Some(b)] else []);
      Unique(QueueIds(q') + PoolIds(p') + l, next')
  {
    var before := QueueIds(q) + PoolIds(p) + l;
    var b := Fill(p, next, buf);
    var p' := if |p| > 0 then p[1..] else [];
    var next' := next + (if |p| > 0 then 0 else 1);
    if |p| > 0 {
      assert p == [p[0]] + p[1..];
      assert QueueIds(q) + PoolIds(p') + l + multiset{b.id} == before;
    } else {
      UniqueAllocate(before, next);
    }
    var taken := QueueIds(q) + PoolIds(p') + l + multiset{b.id};
    if alive {
      QueueIdsAppend(q, Some(b));
      assert QueueIds(q + [Some(b)]) + PoolIds(p') + l == taken;
    } else {
      UniqueRemove(taken, b.id, next');
      assert q + [] == q;
      assert QueueIds(q) + PoolIds(p') + l == taken - multiset{b.id};
    }
  }

  /** The stop message carries no buffer. */
  lemma CloseOwnership(q: seq<Option<Buffer>>, p: seq<Buffer>, l: multiset<nat>, next: nat)
    requires Unique(QueueIds(q) + PoolIds(p) + l, next)
    ensures Unique(QueueIds(q + [None]) + PoolIds(p) + l, next)
  {
    QueueIdsAppend(q, None);
    assert QueueIds(q + [None]) == QueueIds(q);
  }

  /** Receiving moves the buffer of the first queued message, if it carries
      one, from the queue to the entries the thread holds. */
  lemma ReceiveOwnership(q: seq<Option<Buffer>>, p: seq<Buffer>, l: multiset<nat>, next: nat)
    requires |q| > 0
    requires Unique(QueueIds(q) + PoolIds(p) + l, next)
    ensures Unique(QueueIds(q[1..]) + PoolIds(p) + (l + (if q[0].Some? then multiset{q[0].value.id} else multiset{})), next)
  {
    var head := if q[0].Some? then multiset{q[0].value.id} else multiset{};
    assert QueueIds(q) == head + QueueIds(q[1..]);
    assert QueueIds(q[1..]) + PoolIds(p) + (l + head) == QueueIds(q) + PoolIds(p) + l;
  }

  /** Dropping the queued messages frees their buffers. */
  lemma DiscardOwnership(q: seq<Option<Buffer>>, p: seq<Buffer>, l: multiset<nat>, next: nat)
    requires Unique(QueueIds(q) + PoolIds(p) + l, next)
    ensures Unique(QueueIds([]) + PoolIds(p) + l, next)
  {
    var m, m' := QueueIds(q) + PoolIds(p) + l, PoolIds(p) + l;
    assert QueueIds([]) + PoolIds(p) + l == m';
    forall x ensures m'[x] <= 1 {
      assert m'[x] <= m[x];
    }
    forall x | x in m' ensures x < next {
      assert x in m;
    }
  }

  /** Dropping the last writer handle drops the free list it owns,
      freeing the buffers waiting there. */
  lemma FreePoolOwnership(q: seq<Option<Buffer>>, p: seq<Buffer>, l: multiset<nat>, next: nat)
    requires Unique(QueueIds(q) + PoolIds(p) + l, next)
    ensures Unique(QueueIds(q) + PoolIds([]) + l, next)
  {
    var m, m' := QueueIds(q) + PoolIds(p) + l, QueueIds(q) + l;
    assert QueueIds(q) + PoolIds([]) + l == m';
    forall x ensures m'[x] <= 1 {
      assert m'[x] <= m[x];
    }
    forall x | x in m' ensures x < next {
      assert x in m;
    }
  }

  /** Dropping an entry moves its buffer from the entries to the free list,
      or frees it when no writer is left to reuse it. */
  lemma DropOwnership(q: seq<Option<Buffer>>, p: seq<Buffer>, l: multiset<nat>, next: nat, b: Buffer, keep: bool)
    requires b.id in l
    requires Unique(QueueIds(q) + PoolIds(p) + l, next)
    ensures Unique(QueueIds(q) + PoolIds(p + (if keep then [b] else [])) + (l - multiset{b.id}), next)
  {
    var before := QueueIds(q) + PoolIds(p) + l;
    if keep {
      PoolIdsAppend(p, b);
      assert QueueIds(q) + PoolIds(p + [b]) + (l - multiset{b.id}) == before;
    } else {
      UniqueRemove(before, b.id, next);
      assert p + [] == p;
      assert QueueIds(q) + PoolIds(p) + (l - multiset{b.id}) == before - multiset{b.id};
    }
  }

  /** A writer handle; clones share the channels. `live` is false once the
      handle has been dropped, after which it can no longer be used. */
  class LogSender {
    const chans: Channels
    ghost var live: bool

    constructor Share(chans: Channels)
      ensures this.chans == chans && live
    {
      this.chans := chans;
      live := true;
    }

    /** Another handle on the same channels. */
    method Clone() returns (s: LogSender)
      requires live && chans.Valid()
      modifies chans
      ensures fresh(s) && s.chans == chans && s.live && chans.Valid()
      ensures chans.senders == old(chans.senders) + 1
      ensures chans.queue == old(chans.queue) && chans.pool == old(chans.pool)
      ensures chans.receiverAlive == old(chans.receiverAlive) && chans.printed == old(chans.printed)
      ensures chans.nextId == old(chans.nextId) && chans.lent == old(chans.lent)
    {
      chans.senders := chans.senders + 1;
      s := new LogSender.Share(chans);
    }

    /** Dropping this handle. The handles share the free list, so the last
        one to go drops it, freeing the buffers waiting there. */
    method Release()
      requires live && chans.Valid() && chans.senders > 0
      modifies this, chans
      ensures !live && chans.Valid() && chans.senders == old(chans.senders) - 1
      ensures chans.pool == if old(chans.senders) == 1 then [] else old(chans.pool)
      ensures chans.queue == old(chans.queue)
      ensures chans.receiverAlive == old(chans.receiverAlive) && chans.printed == old(chans.printed)
      ensures chans.nextId == old(chans.nextId) && chans.lent == old(chans.lent)
    {
      if chans.senders == 1 {
        FreePoolOwnership(chans.queue, chans.pool, chans.lent, chans.nextId);
        chans.pool := [];
      }
      chans.senders := chans.senders - 1;
      live := false;
    }

    /** Copy `buf` into a buffer from the free list, or into a new one when
        the free list is empty, and queue it for the background thread. When
        the thread is gone, the payload goes to standard output instead and
        the buffer is freed. The whole length is reported written either way. */
    method Write(buf: Bytes) returns (r: Result<nat>)
      requires live && chans.Valid() && chans.senders > 0
      requires |chans.queue| < Capacity || !chans.receiverAlive  // a full channel would block
      modifies chans
      ensures r == Ok(|buf|)
      ensures chans.Valid()
      ensures var b := Fill(old(chans.pool), old(chans.nextId), buf);
        && chans.pool == (if |old(chans.pool)| > 0 then old(chans.pool)[1..] else [])
        && chans.nextId == old(chans.nextId) + (if |old(chans.pool)| > 0 then 0 else 1)
        && chans.queue == old(chans.queue) + (if chans.receiverAlive then [Some(b)] else [])
        && chans.printed == old(chans.printed) + (if chans.receiverAlive then [] else [PrintedText(buf)])
      ensures chans.receiverAlive == old(chans.receiverAlive) && chans.senders == old(chans.senders)
      ensures chans.lent == old(chans.lent)
    {
      var q, p, next, alive := chans.queue, chans.pool, chans.nextId, chans.receiverAlive;
      WriteOwnership(q, p, chans.lent, next, buf, alive);
      var b := Fill(p, next, buf);
      var p' := if |p| > 0 then p[1..] else [];
      var next' := next + (if |p| > 0 then 0 else 1);
      var q' := q + (if alive then [Some(b)] else []);
      var text := if alive then [] else [PrintedText(buf)];
      chans.queue, chans.pool, chans.nextId, chans.printed := q', p', next', chans.printed + text;
      r := Ok(|buf|);
    }

    /** Ask the background thread to stop; a failed send is ignored. */
    method Close()
      requires live && chans.Valid()
      requires |chans.queue| < Capacity || !chans.receiverAlive  // a full channel would block
      modifies chans
      ensures chans.Valid()
      ensures chans.queue == old(chans.queue) + (if chans.receiverAlive then [None] else [])
      ensures chans.pool == old(chans.pool) && chans.printed == old(chans.printed)
      ensures chans.receiverAlive == old(chans.receiverAlive) && chans.senders == old(chans.senders)
      ensures chans.nextId == old(chans.nextId) && chans.lent == old(chans.lent)
    {
      if chans.receiverAlive {
        var q := chans.queue;
        CloseOwnership(q, chans.pool, chans.lent, chans.nextId);
        chans.queue := q + [None];
      }
    }

    /** Nothing is buffered on this side, so there is nothing to flush. */
    method Flush() returns (r: Result<()>)
      ensures r == Ok(())
    {
      r := Ok(());
    }
  }

  // ---------------------------------------------------------------------------
  // Receiver side
  // ---------------------------------------------------------------------------

  /** A received log payload; dropping it hands its buffer back to the free list. */
  class LogEntry {
    var buffer: Option<Buffer>
    const chans: Channels

    constructor (b: Buffer, chans: Channels)
      ensures buffer == Some(b) && this.chans == chans
    {
      buffer := Some(b);
      this.chans := chans;
    }

    /** The payload bytes. */
    method Deref() returns (data: Bytes)
      requires buffer.Some?
      ensures data == buffer.value.data
    {
      data := buffer.value.data;
    }

    /** Hand the buffer back to the free list, exactly once: a second drop
        finds nothing to return. When every writer handle is gone the buffer
        is simply freed. */
    method Drop()
      requires chans.Valid()
      requires buffer.Some? ==> buffer.value.id in chans.lent
      requires |chans.pool| < Capacity || chans.senders == 0  // a full free list would block
      modifies this, chans
      ensures buffer == None && chans.Valid()
      ensures chans.pool == old(chans.pool) +
        (if old(buffer).Some? && chans.senders > 0 then [old(buffer).value] else [])
      ensures chans.lent == old(chans.lent) - (if old(buffer).Some? then multiset{old(buffer).value.id} else multiset{})
      ensures chans.queue == old(chans.queue) && chans.printed == old(chans.printed)
      ensures chans.receiverAlive == old(chans.receiverAlive) && chans.senders == old(chans.senders)
      ensures chans.nextId == old(chans.nextId)
    {
      if buffer.Some? {
        var b, p, l, keep := buffer.value, chans.pool, chans.lent, chans.senders > 0;
        DropOwnership(chans.queue, p, l, chans.nextId, b, keep);
        buffer := None;
        chans.pool, chans.lent := p + (if keep then [b] else []), l - multiset{b.id};
      }
    }

    /** Hand the buffer back without waiting: when the free list is full the
        buffer is freed instead, so dropping an entry never blocks. */
    method DropNonBlocking()
      requires chans.Valid()
      requires buffer.Some? ==> buffer.value.id in chans.lent
      modifies this, chans
      ensures buffer == None && chans.Valid()
      ensures chans.pool == old(chans.pool) +
        (if old(buffer).Some? && chans.senders > 0 && |old(chans.pool)| < Capacity then [old(buffer).value] else [])
      ensures chans.lent == old(chans.lent) - (if old(buffer).Some? then multiset{old(buffer).value.id} else multiset{})
      ensures chans.queue == old(chans.queue) && chans.printed == old(chans.printed)
      ensures chans.receiverAlive == old(chans.receiverAlive) && chans.senders == old(chans.senders)
      ensures chans.nextId == old(chans.nextId)
    {
      if buffer.Some? {
        var b, p, l := buffer.value, chans.pool, chans.lent;
        var keep := chans.senders > 0 && |p| < Capacity;
        DropOwnership(chans.queue, p, l, chans.nextId, b, keep);
        buffer := None;
        chans.pool, chans.lent := p + (if keep then [b] else []), l - multiset{b.id};
      }
    }
  }

  /** The background thread's end of the bridge. */
  class LogReceiver {
    const chans: Channels

    constructor Share(chans: Channels)
      ensures this.chans == chans
    {
      this.chans := chans;
    }

    /** Wait for the next message: an entry for a queued buffer, `None` for
        the stop message or when every writer handle is gone. */
    method Recv() returns (e: Option<LogEntry>)
      requires chans.Valid()
      requires |chans.queue| > 0 || chans.senders == 0  // otherwise it waits
      modifies chans
      ensures chans.Valid()
      ensures var m := RecvMap(StdRecvOf(old(chans.queue), old(chans.senders) > 0));
        && (e.Some? <==> m.Some?)
        && (e.Some? ==> fresh(e.value) && e.value.buffer == m && e.value.chans == chans)
        && chans.lent == old(chans.lent) + (if m.Some? then multiset{m.value.id} else multiset{})
      ensures chans.queue == if |old(chans.queue)| > 0 then old(chans.queue)[1..] else []
      ensures chans.pool == old(chans.pool) && chans.printed == old(chans.printed)
      ensures chans.receiverAlive == old(chans.receiverAlive) && chans.senders == old(chans.senders)
      ensures chans.nextId == old(chans.nextId)
    {
      e := None;
      var q, l := chans.queue, chans.lent;
      if |q| > 0 {
        ReceiveOwnership(q, chans.pool, l, chans.nextId);
        var m := q[0];
        chans.queue, chans.lent := q[1..], l + (if m.Some? then multiset{m.value.id} else multiset{});
        if m.Some? {
          var entry := new LogEntry(m.value, chans);
          e := Some(entry);
        }
      }
    }

    /** Take the next message if one is queued: an entry for a buffer,
        `Closed` for the stop message or a disconnected channel, `Empty`
        when nothing is queued yet. */
    method TryRecv() returns (r: Result<LogEntry>, err: TryRecvError)
      requires chans.Valid()
      modifies chans
      ensures chans.Valid()
      ensures var p := TryRecvMap(StdTryRecvOf(old(chans.queue), old(chans.senders) > 0));
        && (r.Ok? <==> p.Ready?)
        && (r.Ok? ==> fresh(r.value) && r.value.buffer == Some(p.buffer) && r.value.chans == chans)
        && (r.Err? ==> err == p.err)
        && chans.lent == old(chans.lent) + (if p.Ready? then multiset{p.buffer.id} else multiset{})
      ensures chans.queue == if |old(chans.queue)| > 0 then old(chans.queue)[1..] else []
      ensures chans.pool == old(chans.pool) && chans.printed == old(chans.printed)
      ensures chans.receiverAlive == old(chans.receiverAlive) && chans.senders == old(chans.senders)
      ensures chans.nextId == old(chans.nextId)
    {
      r, err := Err, Empty;
      var q, l := chans.queue, chans.lent;
      if |q| > 0 {
        ReceiveOwnership(q, chans.pool, l, chans.nextId);
        var m := q[0];
        chans.queue, chans.lent := q[1..], l + (if m.Some? then multiset{m.value.id} else multiset{});
        if m.Some? {
          var entry := new LogEntry(m.value, chans);
          r := Ok(entry);
        } else {
          err := Closed;
        }
      } else if chans.senders == 0 {
        err := Closed;
      }
    }

    /** Dropping the receiving end: the messages still queued are dropped
        with it, freeing their buffers, and later writes fall back to
        standard output. */
    method Release()
      requires chans.Valid()
      modifies chans
      ensures chans.Valid() && !chans.receiverAlive && chans.queue == []
      ensures chans.pool == old(chans.pool)
      ensures chans.printed == old(chans.printed) && chans.senders == old(chans.senders)
      ensures chans.nextId == old(chans.nextId) && chans.lent == old(chans.lent)
    {
      DiscardOwnership(chans.queue, chans.pool, chans.lent, chans.nextId);
      chans.receiverAlive, chans.queue := false, [];
    }
  }

  /** Create both ends over empty channels of capacity `Capacity`. */
  method Init() returns (s: LogSender, r: LogReceiver)
    ensures fresh(s) && fresh(r) && fresh(s.chans) && s.chans == r.chans
    ensures s.chans.Valid()
    ensures s.chans.queue == [] && s.chans.pool == [] && s.chans.receiverAlive && s.chans.senders == 1
    ensures s.chans.printed == [] && s.chans.nextId == 0 && s.chans.lent == multiset{}
    ensures s.live
  {
    var chans := new Channels();
    s := new LogSender.Share(chans);
    r := new LogReceiver.Share(chans);
  }

  // ---------------------------------------------------------------------------
  // A full free list
  // ---------------------------------------------------------------------------

  /** The free list can fill up while the thread holds an entry. One write
      is received and held; `Capacity` more writes fill the message queue
      with new buffers; receiving and dropping each of those fills the free
      list. The held entry's `Drop` then has to wait for a free slot (its
      precondition fails), and only `LogSender.Write` ever takes a buffer off
      the free list. */
  method FreeListFills(buf: Bytes) returns (s: LogSender, r: LogReceiver, held: LogEntry)
    ensures s.live && r.chans == s.chans && held.chans == s.chans && s.chans.Valid()
    ensures s.chans.senders == 1 && s.chans.receiverAlive && s.chans.queue == []
    ensures |s.chans.pool| == Capacity
    ensures held.buffer.Some? && held.buffer.value.id in s.chans.lent
  {
    s, r := Init();
    var _ := s.Write(buf);
    var first := r.Recv();
    held := first.value;
    FillQueue(s, buf);
    ReturnAll(r, held);
  }

  /** `Capacity` writes while the free list is empty queue as many new buffers. */
  method FillQueue(s: LogSender, buf: Bytes)
    requires s.live && s.chans.Valid() && s.chans.senders == 1 && s.chans.receiverAlive
    requires s.chans.queue == [] && s.chans.pool == []
    modifies s.chans
    ensures s.chans.Valid() && s.chans.senders == 1 && s.chans.receiverAlive && s.chans.pool == []
    ensures |s.chans.queue| == Capacity && forall i :: 0 <= i < Capacity ==> s.chans.queue[i].Some?
    ensures s.chans.lent == old(s.chans.lent)
  {
    var k := 0;
    while k < Capacity
      invariant k <= Capacity && s.chans.Valid()
      invariant s.chans.senders == 1 && s.chans.receiverAlive && s.chans.pool == []
      invariant |s.chans.queue| == k && forall i :: 0 <= i < k ==> s.chans.queue[i].Some?
      invariant s.chans.lent == old(s.chans.lent)
    {
      var _ := s.Write(buf);
      k := k + 1;
    }
  }

  /** Receiving and dropping every queued buffer while another entry is held
      moves them all to the free list. */
  method ReturnAll(r: LogReceiver, held: LogEntry)
    requires r.chans.Valid() && r.chans.senders == 1 && r.chans.receiverAlive && r.chans.pool == []
    requires |r.chans.queue| == Capacity && forall i :: 0 <= i < Capacity ==> r.chans.queue[i].Some?
    requires held.chans == r.chans && held.buffer.Some? && held.buffer.value.id in r.chans.lent
    modifies r.chans
    ensures r.chans.Valid() && r.chans.senders == 1 && r.chans.receiverAlive
    ensures r.chans.queue == [] && |r.chans.pool| == Capacity
    ensures held.buffer.Some? && held.buffer.value.id in r.chans.lent
  {
    var c := r.chans;
    var k := 0;
    while k < Capacity
      invariant k <= Capacity && c.Valid()
      invariant c.senders == 1 && c.receiverAlive && |c.pool| == k
      invariant |c.queue| == Capacity - k && forall i :: 0 <= i < |c.queue| ==> c.queue[i].Some?
      invariant held.buffer.Some? && held.buffer.value.id in c.lent
    {
      var e := r.Recv();
      e.value.Drop();
      k := k + 1;
    }
  }

  // ---------------------------------------------------------------------------
  // UTF-8 well-formedness (the syntax of section 4 of RFC 3629)
  // ---------------------------------------------------------------------------

  predicate InRange(b: byte, lo: int, hi: int) { lo <= b as int <= hi }

  /** The length of the well-formed UTF-8 sequence at the start of `s`, or
      0 when there is none. */
  function CharLen(s: Bytes): (n: nat)
    requires |s| > 0
    ensures n <= 4 && n <= |s|
  {
    var b0 := s[0];
    if InRange(b0, 0x00, 0x7F) then 1
    else if |s| >= 2 && InRange(b0, 0xC2, 0xDF) && InRange(s[1], 0x80, 0xBF) then 2
    else if |s| >= 3 && InRange(s[2], 0x80, 0xBF) &&
      ((b0 as int == 0xE0 && InRange(s[1], 0xA0, 0xBF)) ||
       (InRange(b0, 0xE1, 0xEC) && InRange(s[1], 0x80, 0xBF)) ||
       (b0 as int == 0xED && InRange(s[1], 0x80, 0x9F)) ||
       (InRange(b0, 0xEE, 0xEF) && InRange(s[1], 0x80, 0xBF))) then 3
    else if |s| >= 4 && InRange(s[2], 0x80, 0xBF) && InRange(s[3], 0x80, 0xBF) &&
      ((b0 as int == 0xF0 && InRange(s[1], 0x90, 0xBF)) ||
       (InRange(b0, 0xF1, 0xF3) && InRange(s[1], 0x80, 0xBF)) ||
       (b0 as int == 0xF4 && InRange(s[1], 0x80, 0x8F))) then 4
    else 0
  }

  predicate ValidUtf8(s: Bytes)
    decreases |s|
  {
    s == [] || (CharLen(s) > 0 && ValidUtf8(s[CharLen(s)..]))
  }

  /** Plain ASCII text is well-formed UTF-8, so a log line in ASCII that falls
      back to standard output is printed unchanged. */
  lemma {:induction false} AsciiIsUtf8(s: Bytes)
    requires forall k :: 0 <= k < |s| ==> s[k] < 0x80
    ensures ValidUtf8(s) && PrintedText(s) == s
    decreases |s|
  {
    if s != [] {
      assert CharLen(s) == 1;
      AsciiIsUtf8(s[1..]);
    }
  }
}
