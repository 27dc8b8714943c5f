/**
 The file sink: its status machine (open, write, rotate, recover) and its accounting. The
 outcomes of file operations and the clock are parameters.
 */
module FileSink {
  import opened Basics
  import opened DispatchWord
  import opened LogSink

  /** Opening a stream: the path cannot be resolved, the directory or the file cannot be
      created, or a file of `size` bytes is open. */
  datatype OpenResult = NoPath | NoDirectory | NoFile | Opened(size: nat)

  /** Choosing a rotation target: an error, the current file again, or an attempt to open another. */
  datatype RotateResult = NoTarget | SamePath | Reopen(result: OpenResult)

  /** Milliseconds before the next attempt after that many earlier failures. */
  function Backoff(failures: nat): (ms: nat)
    ensures ms <= 60000
  {
    if failures == 0 then 0
    else if failures > 6 then 60000
    else if 1000 * Pow2(failures - 1) < 60000 then 1000 * Pow2(failures - 1) else 60000
  }

  /** The first retry is immediate, the second waits a second, and from then on the wait doubles
      up to a minute. */
  lemma BackoffSchedule(failures: nat)
    ensures Backoff(0) == 0 && Backoff(1) == 1000
    ensures failures >= 1 ==>
              Backoff(failures + 1) == if 2 * Backoff(failures) < 60000 then 2 * Backoff(failures) else 60000
  {
    assert Pow2(0) == 1 && Pow2(1) == 2 && Pow2(2) == 4 && Pow2(3) == 8 && Pow2(4) == 16 && Pow2(5) == 32;
  }

  // ------------------------------------------------------------------ what an attempt leaves behind

  /** The state of a sink apart from its accounting. */
  datatype File = File(hint: Hint, failures: nat, open: bool, bytes: nat)

  /** A failed attempt sets the status and the next deadline, and touches no stream. */
  ghost predicate FailsTo(f: File, status: Status, now: nat, g: File) {
    && g.hint == Hint(status, f.hint.threshold, (now + Backoff(f.failures)) % TWO_48)
    && g.failures == f.failures + 1 && g.open == f.open && g.bytes == f.bytes
  }

  /** An open that succeeds makes the sink Healthy on the new stream, with nothing to retry. */
  ghost predicate OpensTo(f: File, o: OpenResult, onFailure: Status, now: nat, g: File) {
    if o.Opened? then g == File(Hint(Healthy, f.hint.threshold, 0), 0, true, o.size)
    else FailsTo(f, onFailure, now, g)
  }

  /** A rotation happens once the file has grown to the limit; if it fails the sink is Degraded
      and goes on with the current stream. */
  ghost predicate RotatesTo(f: File, rotates: bool, maxSize: nat, now: nat, r: RotateResult, g: File) {
    if !rotates || f.bytes < maxSize then g == f
    else
      match r
      case NoTarget => FailsTo(f, Degraded, now, g)
      case SamePath => g == f
      case Reopen(o) => OpensTo(f, o, Degraded, now, g)
  }

  /** A Degraded sink does not rotate before its deadline. */
  ghost predicate DueRotatesTo(f: File, rotates: bool, maxSize: nat, now: nat, r: RotateResult, g: File) {
    if f.hint.status == Degraded && now < f.hint.retryAt then g == f else RotatesTo(f, rotates, maxSize, now, r, g)
  }

  /** The bytes of those of the first `n` events that are written. */
  function BytesOf(threshold: nat, filter: PrefixFilter, batch: seq<Event>, sizes: seq<nat>, n: nat): nat
    requires n <= |batch| == |sizes|
  {
    if n == 0 then 0
    else
      BytesOf(threshold, filter, batch, sizes, n - 1)
      + if ShouldLog(threshold, filter, batch[n - 1]) then sizes[n - 1] else 0
  }

  class FileSink {
    const threshold: nat
    const filter: PrefixFilter
    const rotates: bool
    const maxSize: nat
    var word: nat
    var failures: nat
    var undelivered: nat
    var open: bool
    var bytes: nat
    // every event the sink was given, and what it did with them
    ghost var seen: seq<Event>
    ghost var account: Account

    function Status(): Status
      reads this
    {
      Unpack(word).status
    }

    function RetryAt(): nat
      reads this
    {
      Unpack(word).retryAt
    }

    ghost function View(): File
      reads this
    {
      File(Unpack(word), failures, open, bytes)
    }

    /** The dispatch word has 64 bits and holds the threshold of the sink. */
    ghost predicate Tuned()
      reads this
    {
      word < TWO_64 && threshold < 256 && Unpack(word).threshold == threshold
    }

    /** Every event is accounted for once, as the filter says, the counter is the number of lost
        ones, and a sink that is not Dead has a stream to write to. */
    ghost predicate Valid()
      reads this
    {
      && Tuned()
      && Total(account) == multiset(seen) && undelivered == |account.lost| && Honest(threshold, filter, account)
      && (Status() != Dead ==> open)
    }

    constructor (threshold: nat, filter: PrefixFilter, rotates: bool, maxSize: nat, o: OpenResult, now: nat)
      requires threshold < 256
      ensures Valid() && this.threshold == threshold && this.filter == filter
      ensures this.rotates == rotates && this.maxSize == maxSize
      ensures seen == [] && account == Account([], [], [])
      ensures OpensTo(File(Hint(Healthy, threshold, 0), 0, false, 0), o, Dead, now, View())
      ensures Status() == if o.Opened? then Healthy else Dead
    {
      this.threshold, this.filter, this.rotates, this.maxSize := threshold, filter, rotates, maxSize;
      word := Pack(Hint(Healthy, threshold, 0));
      failures, undelivered, open, bytes := 0, 0, false, 0;
      seen, account := [], Account([], [], []);
      new;
      PackUnpack(Hint(Healthy, threshold, 0));
      OpenStream(o, Dead, now);
    }

    /** update_dispatch with the status replaced; the other fields survive. */
    method SetStatus(status: Status)
      requires word < TWO_64
      modifies this`word
      ensures word < TWO_64 && Unpack(word) == old(Unpack(word)).(status := status)
    {
      var h := Unpack(word).(status := status);
      PackUnpack(h);
      word := Pack(h);
    }

    /** The deadline is shifted into the upper 48 bits of the word. */
    method SetRetryAt(at: nat)
      modifies this`word
      ensures word < TWO_64 && Unpack(word) == old(Unpack(word)).(retryAt := at % TWO_48)
    {
      var h := Unpack(word).(retryAt := at);
      PackUnpack(h);
      word := Pack(h);
    }

    /** A failed attempt: the retry deadline moves out and the status changes. */
    method Fail(status: Status, now: nat)
      modifies this`word, this`failures
      ensures word < TWO_64 && FailsTo(old(View()), status, now, View())
    {
      SetRetryAt(now + Backoff(failures));
      failures := failures + 1;
      SetStatus(status);
    }

    /** A failed open leaves the current stream in place; a successful one replaces it. */
    method OpenStream(o: OpenResult, onFailure: Status, now: nat)
      requires Tuned()
      requires onFailure == Dead || open
      modifies this`word, this`failures, this`open, this`bytes
      ensures Tuned() && (old(open) ==> open)
      ensures OpensTo(old(View()), o, onFailure, now, View())
    {
      if o.Opened? {
        open, bytes := true, o.size;
        failures := 0;
        SetRetryAt(0);
        SetStatus(Healthy);
      } else {
        Fail(onFailure, now);
      }
    }

    /** Rotation never kills the sink: a failure only degrades it. */
    method RotateNow(now: nat, r: RotateResult)
      requires Valid() && Status() != Dead
      modifies this`word, this`failures, this`open, this`bytes
      ensures Valid() && Status() != Dead
      ensures RotatesTo(old(View()), rotates, maxSize, now, r, View())
      ensures rotates && old(bytes) >= maxSize ==>
                match r
                case NoTarget => Status() == Degraded && bytes == old(bytes)
                case SamePath => Status() == old(Status()) && bytes == old(bytes)
                case Reopen(o) =>
                  if o.Opened? then Status() == Healthy && bytes == o.size
                  else Status() == Degraded && bytes == old(bytes)
    {
      if !rotates || bytes < maxSize {
        return;
      }
      match r
      case NoTarget => Fail(Degraded, now);
      case SamePath =>
      case Reopen(o) => OpenStream(o, Degraded, now);
    }

    method RotateIfNeeded(now: nat, r: RotateResult)
      requires Valid() && Status() != Dead
      modifies this`word, this`failures, this`open, this`bytes
      ensures Valid() && Status() != Dead
      ensures DueRotatesTo(old(View()), rotates, maxSize, now, r, View())
    {
      if Status() == Degraded && now < RetryAt() {
        return;
      }
      RotateNow(now, r);
    }

    /** Formats and writes one event the filter lets through; a write that throws kills the sink. */
    method WriteGuarded(e: Event, ok: bool, size: nat, now: nat) returns (alive: bool)
      requires Tuned()
      modifies this`word, this`failures, this`bytes
      ensures Tuned() && alive == (ShouldLog(threshold, filter, e) ==> ok)
      ensures alive ==>
                View() == old(View()).(bytes := old(bytes) + if ShouldLog(threshold, filter, e) then size else 0)
      ensures alive ==> word == old(word)
      ensures !alive ==> FailsTo(old(View()), Dead, now, View())
    {
      if !ShouldLog(threshold, filter, e) {
        return true;
      }
      if !ok {
        Fail(Dead, now);
        return false;
      }
      bytes := bytes + size;
      return true;
    }

    /** The write loop of process_batch: it stops at the first write that fails. */
    method WriteBatch(batch: seq<Event>, writes: seq<bool>, sizes: seq<nat>, now: nat) returns (n: nat)
      requires |writes| == |sizes| == |batch| && Tuned() && Status() != Dead
      modifies this`word, this`failures, this`bytes
      ensures Tuned() && n == Delivered(threshold, filter, batch, writes)
      ensures var f := old(View()).(bytes := old(bytes) + BytesOf(threshold, filter, batch, sizes, n));
              if n < |batch| then FailsTo(f, Dead, now, View()) else View() == f
    {
      hide Unpack, ShouldLog;
      n := 0;
      while n < |batch|
        invariant n <= Delivered(threshold, filter, batch, writes)
        invariant Tuned()
        invariant View() == old(View()).(bytes := old(bytes) + BytesOf(threshold, filter, batch, sizes, n))
      {
        var alive := WriteGuarded(batch[n], writes[n], sizes[n], now);
        if !alive {
          return;
        }
        n := n + 1;
      }
    }

    /** process_batch: a Dead sink loses the batch; otherwise events go through up to the first
        write that fails, and that event and the rest are lost. */
    method ProcessBatch(batch: seq<Event>, writes: seq<bool>, sizes: seq<nat>, now: nat, r: RotateResult)
      requires Valid() && |writes| == |sizes| == |batch|
      modifies this
      ensures Valid() && seen == old(seen) + batch
      ensures old(Status()) == Dead ==>
                account == Book(threshold, filter, old(account), batch, 0) && View() == old(View())
      ensures old(Status()) != Dead ==>
                var n := Delivered(threshold, filter, batch, writes);
                var f := old(View()).(bytes := old(bytes) + BytesOf(threshold, filter, batch, sizes, n));
                && account == Book(threshold, filter, old(account), batch, n)
                && (if n < |batch| then FailsTo(f, Dead, now, View())
                    else DueRotatesTo(f, rotates, maxSize, now, r, View()))
                && (Status() == Dead <==> n < |batch|)
    {
      hide Unpack, Book, Total, Delivered, Honest, BytesOf;
      if Status() == Dead {
        undelivered := undelivered + |batch|;
        BookTotal(threshold, filter, account, batch, 0);
        BookHonest(threshold, filter, account, batch, 0);
        seen, account := seen + batch, Book(threshold, filter, account, batch, 0);
        return;
      }
      var n := WriteBatch(batch, writes, sizes, now);
      BookTotal(threshold, filter, account, batch, n);
      BookHonest(threshold, filter, account, batch, n);
      seen, account := seen + batch, Book(threshold, filter, account, batch, n);
      if n < |batch| {
        undelivered := undelivered + (|batch| - n);
      } else {
        RotateIfNeeded(now, r);
      }
    }

    /** process: the same for one event. */
    method Process(e: Event, ok: bool, size: nat, now: nat, r: RotateResult)
      requires Valid()
      modifies this
      ensures Valid() && seen == old(seen) + [e]
      ensures account == Book(threshold, filter, old(account), [e],
                              if old(Status()) == Dead || (ShouldLog(threshold, filter, e) && !ok) then 0 else 1)
      ensures var f := old(View()).(bytes := old(bytes) + if ShouldLog(threshold, filter, e) then size else 0);
              if old(Status()) == Dead then View() == old(View())
              else if ShouldLog(threshold, filter, e) && !ok then FailsTo(old(View()), Dead, now, View())
              else DueRotatesTo(f, rotates, maxSize, now, r, View())
    {
      hide Unpack, Book, Total, ShouldLog, Honest;
      var n := 0;
      if Status() != Dead {
        var alive := WriteGuarded(e, ok, size, now);
        n := if alive then 1 else 0;
      }
      BookTotal(threshold, filter, account, [e], n);
      BookHonest(threshold, filter, account, [e], n);
      seen, account := seen + [e], Book(threshold, filter, account, [e], n);
      if n == 0 {
        undelivered := undelivered + 1;
      } else {
        RotateIfNeeded(now, r);
      }
    }

    /** maintain: nothing before the deadline; then a Dead sink reopens its file, a live one rotates. */
    method Maintain(now: nat, o: OpenResult, r: RotateResult)
      requires Valid()
      modifies this`word, this`failures, this`open, this`bytes
      ensures Valid()
      ensures now < old(RetryAt()) ==> View() == old(View())
      ensures now >= old(RetryAt()) ==>
                if old(Status()) == Dead then OpensTo(old(View()), o, Dead, now, View())
                else RotatesTo(old(View()), rotates, maxSize, now, r, View())
      ensures old(Status()) != Dead ==> Status() != Dead
    {
      if now < RetryAt() {
        return;
      }
      if Status() == Dead {
        OpenStream(o, Dead, now);
      } else {
        RotateNow(now, r);
      }
    }
  }
}
