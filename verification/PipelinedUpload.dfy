/**
 The pipelined uploader: a sliding window of SSH_FXP_WRITE requests (sections 6.1
 and 6.4 of draft-ietf-secsh-filexfer-02) that complete in any order and must add
 up to a sequential copy.

 Reads, completions, cancellation and failures are nondeterministic choices of
 the methods, so what is proved holds for every one of them. The server may apply
 bytes of any outstanding write at any time; a success status means that the
 whole write has been applied.
 */
module PipelinedUpload {
  import opened Common

  newtype byte = x: int | 0 <= x < 256

  const TARGET_PIPELINE_WINDOW_BYTES := 8 * 1024 * 1024
  const DEFAULT_WINDOW_CAPACITY := 32

  /** As many chunks as fill the transport window, but no fewer than 16 and no more than 128. */
  function OptimalWindowCapacity(chunkSize: nat): (r: nat)
    ensures 16 <= r <= 128 && (chunkSize == 0 ==> r == DEFAULT_WINDOW_CAPACITY)
    ensures chunkSize > 0 && r < 128 ==> TARGET_PIPELINE_WINDOW_BYTES < (r + 1) * chunkSize
    ensures chunkSize > 0 && r > 16 ==> r * chunkSize <= TARGET_PIPELINE_WINDOW_BYTES
  {
    if chunkSize == 0 then DEFAULT_WINDOW_CAPACITY
    else
      var capacity := TARGET_PIPELINE_WINDOW_BYTES / chunkSize;
      if capacity < 16 then 16 else if capacity > 128 then 128 else capacity
  }

  function NextChunkLen(remaining: nat, chunkSize: nat): (r: nat)
    ensures r <= remaining && r <= chunkSize && (r == remaining || r == chunkSize)
  {
    if remaining < chunkSize then remaining else chunkSize
  }

  datatype Chunk = Chunk(offset: nat, data: seq<byte>)

  datatype Failure = Cancelled | ReadFailed | WriteFailed | WorkerFailed | Incomplete | ProgressClosed

  datatype Result = Ok(bytes: nat) | Err(failure: Failure)

  datatype Completion = Acknowledged | Refused | Crashed

  type File = map<nat, byte>

  function Bytes(chunks: seq<Chunk>): nat {
    if chunks == [] then 0 else Bytes(chunks[..|chunks| - 1]) + |chunks[|chunks| - 1].data|
  }

  lemma {:induction false} BytesWithout(chunks: seq<Chunk>, k: nat)
    requires k < |chunks|
    ensures Bytes(chunks[..k] + chunks[k + 1..]) + |chunks[k].data| == Bytes(chunks)
  {
    var rest := chunks[..k] + chunks[k + 1..];
    if k == |chunks| - 1 {
      assert rest == chunks[..k];
    } else {
      var front := chunks[..|chunks| - 1];
      BytesWithout(front, k);
      assert rest[..|rest| - 1] == front[..k] + front[k + 1..];
    }
  }

  /** The chunk carries the source's own bytes for its place. */
  ghost predicate Faithful(source: seq<byte>, c: Chunk) {
    && c.data != []
    && c.offset + |c.data| <= |source|
    && c.data == source[c.offset..c.offset + |c.data|]
  }

  ghost predicate AllFaithful(source: seq<byte>, chunks: seq<Chunk>, end: nat) {
    forall k | 0 <= k < |chunks| :: Faithful(source, chunks[k]) && chunks[k].offset + |chunks[k].data| <= end
  }

  lemma FaithfulWithout(source: seq<byte>, chunks: seq<Chunk>, end: nat, k: nat)
    requires AllFaithful(source, chunks, end) && k < |chunks|
    ensures AllFaithful(source, chunks[..k] + chunks[k + 1..], end)
  {
  }

  lemma FaithfulWith(source: seq<byte>, chunks: seq<Chunk>, c: Chunk)
    requires AllFaithful(source, chunks, c.offset) && Faithful(source, c)
    ensures AllFaithful(source, chunks + [c], c.offset + |c.data|)
  {
  }

  predicate NoneLonger(chunks: seq<Chunk>, size: nat) {
    forall k | 0 <= k < |chunks| :: |chunks[k].data| <= size
  }

  /** The chunks cover `[0, end)` one after another: no gap, no overlap. */
  ghost predicate Tiles(chunks: seq<Chunk>, end: nat) {
    if chunks == [] then end == 0
    else
      var last := chunks[|chunks| - 1];
      && last.offset + |last.data| == end
      && Tiles(chunks[..|chunks| - 1], last.offset)
  }

  predicate Covers(c: Chunk, p: nat) {
    c.offset <= p < c.offset + |c.data|
  }

  /** `later` differs from `now` only where an outstanding write has put its bytes. */
  ghost predicate Progressed(now: File, later: File, outstanding: seq<Chunk>) {
    && now.Keys <= later.Keys
    && forall p | p in later ::
         || (p in now && later[p] == now[p])
         || exists k | 0 <= k < |outstanding| ::
              Covers(outstanding[k], p) && later[p] == outstanding[k].data[p - outstanding[k].offset]
  }

  ghost predicate Written(file: File, c: Chunk) {
    forall p: nat | Covers(c, p) :: p in file && file[p] == c.data[p - c.offset]
  }

  /** The file after the whole of `c` has been applied. */
  function Apply(file: File, c: Chunk): File {
    map p: nat | p in file.Keys + (set q: nat | q < c.offset + |c.data| && Covers(c, q)) ::
      if Covers(c, p) then c.data[p - c.offset] else file[p]
  }

  lemma ApplyProgresses(file: File, outstanding: seq<Chunk>, k: nat)
    requires k < |outstanding|
    ensures Progressed(file, Apply(file, outstanding[k]), outstanding)
    ensures Written(Apply(file, outstanding[k]), outstanding[k])
  {
  }

  /** What the server may have made of the file by now; `k` has been applied in full when `all` is set. */
  ghost predicate ServerMay(now: File, later: File, outstanding: seq<Chunk>, k: nat, all: bool)
    requires k < |outstanding|
  {
    Progressed(now, later, outstanding) && (all ==> Written(later, outstanding[k]))
  }

  lemma ServerCan(now: File, outstanding: seq<Chunk>, k: nat, all: bool)
    requires k < |outstanding|
    ensures exists later :: ServerMay(now, later, outstanding, k, all)
  {
    ApplyProgresses(now, outstanding, k);
    assert ServerMay(now, Apply(now, outstanding[k]), outstanding, k, all);
  }

  /** Every byte of the file is the source's or what was there before. */
  ghost predicate Uncorrupted(source: seq<byte>, initial: File, file: File, end: nat) {
    && initial.Keys <= file.Keys
    && forall p | p in file ::
         || (p in initial && file[p] == initial[p])
         || (p < end && p < |source| && file[p] == source[p])
  }

  lemma UncorruptedGrows(source: seq<byte>, initial: File, file: File, end: nat, later: nat)
    requires Uncorrupted(source, initial, file, end) && end <= later
    ensures Uncorrupted(source, initial, file, later)
  {
  }

  /** Every byte issued so far is in the file or in an outstanding write. */
  ghost predicate Accounted(source: seq<byte>, file: File, outstanding: seq<Chunk>, end: nat) {
    end <= |source| &&
    forall p | 0 <= p < end ::
      (p in file && file[p] == source[p]) || exists k :: 0 <= k < |outstanding| && Covers(outstanding[k], p)
  }

  lemma AckKeeps(source: seq<byte>, file: File, outstanding: seq<Chunk>, k: nat, end: nat)
    requires k < |outstanding| && Faithful(source, outstanding[k]) && Written(file, outstanding[k])
    requires Accounted(source, file, outstanding, end)
    ensures Accounted(source, file, outstanding[..k] + outstanding[k + 1..], end)
  {
    var rest := outstanding[..k] + outstanding[k + 1..];
    forall p | 0 <= p < end && !(p in file && file[p] == source[p])
      ensures exists j :: 0 <= j < |rest| && Covers(rest[j], p)
    {
      var j :| 0 <= j < |outstanding| && Covers(outstanding[j], p);
      if j != k {
        assert rest[if j < k then j else j - 1] == outstanding[j];
      }
    }
  }

  lemma IssueKeeps(source: seq<byte>, file: File, outstanding: seq<Chunk>, c: Chunk, end: nat)
    requires Accounted(source, file, outstanding, end) && Faithful(source, c) && c.offset == end
    ensures Accounted(source, file, outstanding + [c], end + |c.data|)
  {
    var more := outstanding + [c];
    forall p | 0 <= p < end + |c.data| && !(p in file && file[p] == source[p])
      ensures exists k :: 0 <= k < |more| && Covers(more[k], p)
    {
      if p < end {
        var k :| 0 <= k < |outstanding| && Covers(outstanding[k], p);
        assert more[k] == outstanding[k];
      } else {
        assert more[|outstanding|] == c;
      }
    }
  }

  /** The bookkeeping of chunks: they tile what was issued, and each is outstanding or acknowledged. */
  ghost predicate Books(issued: seq<Chunk>, outstanding: seq<Chunk>, acknowledged: seq<Chunk>, done: nat, end: nat) {
    && Tiles(issued, end)
    && multiset(issued) == multiset(outstanding) + multiset(acknowledged)
    && done + Bytes(outstanding) == end
    && done == Bytes(acknowledged)
  }

  lemma BooksIssue(issued: seq<Chunk>, outstanding: seq<Chunk>, acknowledged: seq<Chunk>, done: nat, c: Chunk)
    requires Books(issued, outstanding, acknowledged, done, c.offset)
    ensures Books(issued + [c], outstanding + [c], acknowledged, done, c.offset + |c.data|)
  {
  }

  lemma BooksAcknowledge(issued: seq<Chunk>, outstanding: seq<Chunk>, acknowledged: seq<Chunk>,
                         done: nat, end: nat, k: nat)
    requires Books(issued, outstanding, acknowledged, done, end) && k < |outstanding|
    ensures Books(issued, outstanding[..k] + outstanding[k + 1..], acknowledged + [outstanding[k]],
                  done + |outstanding[k].data|, end)
  {
    var c, rest := outstanding[k], outstanding[..k] + outstanding[k + 1..];
    BytesWithout(outstanding, k);
    assert (acknowledged + [c])[..|acknowledged|] == acknowledged;
    assert outstanding == outstanding[..k] + [c] + outstanding[k + 1..];
    assert multiset(outstanding) == multiset(rest) + multiset{c};
  }

  /** The uploader, the remote file and the history of chunks. */
  datatype State = State(
    source: seq<byte>, total: Option<nat>, chunkSize: nat, window: nat, initial: File,
    position: nat, offset: nat, eof: bool, inFlight: seq<Chunk>, done: nat, remote: File,
    issued: seq<Chunk>, acknowledged: seq<Chunk>, peak: nat)

  ghost predicate SafeState(s: State) {
    && s.chunkSize >= 1 && s.window >= 1
    && s.offset <= s.position <= |s.source|
    && (s.total.Some? ==> s.offset <= s.total.value)
    && |s.inFlight| <= s.peak <= s.window
    && SafeBooks(s)
    && SafeContent(s)
  }

  /** The chunks issued tile `[0, offset)`, and each is in flight or acknowledged. */
  ghost predicate SafeBooks(s: State) {
    && Books(s.issued, s.inFlight, s.acknowledged, s.done, s.offset)
    && NoneLonger(s.issued, s.chunkSize)
  }

  /** Chunks in flight carry the source's bytes; the file holds no other, and none issued is missing. */
  ghost predicate SafeContent(s: State) {
    && AllFaithful(s.source, s.inFlight, s.offset)
    && Uncorrupted(s.source, s.initial, s.remote, s.offset)
    && Accounted(s.source, s.remote, s.inFlight, s.offset)
  }

  /** Between two chunks: everything read is issued, and the end flag is honest. */
  ghost predicate Steady(s: State) {
    && s.position == s.offset
    && (s.eof ==> s.offset == |s.source| || s.total == Some(s.offset))
  }

  /** Reading ahead and noticing the end leave a safe state safe. */
  lemma ReadSafe(s: State, t: State)
    requires SafeState(s) && t == s.(position := t.position, eof := t.eof) && s.offset <= t.position <= |s.source|
    ensures SafeState(t)
  {
  }

  ghost function Issued(s: State, buffer: seq<byte>): State {
    var c := Chunk(s.offset, buffer);
    s.(offset := s.offset + |buffer|, inFlight := s.inFlight + [c], issued := s.issued + [c],
       peak := if |s.inFlight| + 1 > s.peak then |s.inFlight| + 1 else s.peak)
  }

  lemma IssueSafe(s: State, buffer: seq<byte>)
    requires SafeState(s) && buffer != [] && |buffer| <= s.chunkSize && |s.inFlight| < s.window
    requires s.position == s.offset + |buffer| && buffer == s.source[s.offset..s.position]
    requires s.total.Some? ==> s.position <= s.total.value
    ensures SafeState(Issued(s, buffer))
  {
    IssueKeepsBooks(s, buffer);
    IssueKeepsContent(s, buffer);
  }

  lemma IssueKeepsBooks(s: State, buffer: seq<byte>)
    requires SafeBooks(s) && |buffer| <= s.chunkSize
    ensures SafeBooks(Issued(s, buffer))
  {
    BooksIssue(s.issued, s.inFlight, s.acknowledged, s.done, Chunk(s.offset, buffer));
  }

  lemma IssueKeepsContent(s: State, buffer: seq<byte>)
    requires SafeContent(s) && buffer != [] && s.offset + |buffer| <= |s.source|
    requires buffer == s.source[s.offset..s.offset + |buffer|]
    ensures SafeContent(Issued(s, buffer))
  {
    var c := Chunk(s.offset, buffer);
    IssueKeeps(s.source, s.remote, s.inFlight, c, s.offset);
    FaithfulWith(s.source, s.inFlight, c);
    UncorruptedGrows(s.source, s.initial, s.remote, s.offset, s.offset + |buffer|);
  }

  ghost function AcknowledgedAt(s: State, k: nat): State
    requires k < |s.inFlight|
  {
    s.(done := s.done + |s.inFlight[k].data|, acknowledged := s.acknowledged + [s.inFlight[k]],
       inFlight := s.inFlight[..k] + s.inFlight[k + 1..])
  }

  lemma AcknowledgeSafe(s: State, k: nat)
    requires SafeState(s) && k < |s.inFlight| && Written(s.remote, s.inFlight[k])
    ensures SafeState(AcknowledgedAt(s, k)) && (Steady(s) ==> Steady(AcknowledgedAt(s, k)))
  {
    FaithfulWithout(s.source, s.inFlight, s.offset, k);
    AckKeeps(s.source, s.remote, s.inFlight, k, s.offset);
    BooksAcknowledge(s.issued, s.inFlight, s.acknowledged, s.done, s.offset, k);
  }

  lemma ServerSafe(s: State, later: File)
    requires SafeState(s) && Progressed(s.remote, later, s.inFlight)
    ensures SafeState(s.(remote := later))
  {
  }

  /** The remote file is the first `n` bytes of the source, and beyond that what it was. */
  ghost predicate Copied(s: State, n: nat) {
    && n <= |s.source|
    && (forall p: nat | p < n :: p in s.remote && s.remote[p] == s.source[p])
    && (forall p: nat | n <= p :: p in s.remote <==> p in s.initial)
    && (forall p: nat | n <= p && p in s.remote :: s.remote[p] == s.initial[p])
  }

  /** Nothing in flight and the end reached: what was issued is copied, and it is all there was to copy. */
  lemma DrainedIsCopied(s: State)
    requires SafeState(s) && Steady(s) && s.inFlight == [] && s.eof
    ensures Copied(s, s.done) && s.done == s.offset
    ensures multiset(s.issued) == multiset(s.acknowledged)
    ensures s.done == |s.source| || s.total == Some(s.done)
    ensures s.total.Some? ==> s.done <= s.total.value
  {
  }

  /** The adverse answers so far, when the last call ended with `failure` or without one. */
  ghost function After(trouble: seq<Failure>, failure: Option<Failure>): seq<Failure> {
    match failure case None => trouble case Some(f) => trouble + [f]
  }

  class PipelinedUploadWriter {
    const source: seq<byte>
    const bytesTotal: Option<nat>
    const chunkSize: nat
    const windowCapacity: nat
    ghost const initial: File

    var position: nat
    var currentOffset: nat
    var eofReached: bool
    var inFlight: seq<Chunk>
    var bytesDone: nat
    ghost var remote: File
    ghost var issued: seq<Chunk>
    ghost var acknowledged: seq<Chunk>
    ghost var peak: nat
    var cancelToken: bool
    /** The adverse answers the environment has given, in order. */
    ghost var trouble: seq<Failure>

    constructor (source: seq<byte>, bytesTotal: Option<nat>, chunkSize: nat, windowCapacity: nat, ghost remote: File)
      ensures Valid() && Fresh() && !cancelToken
      ensures this.source == source && this.bytesTotal == bytesTotal && initial == remote
      ensures this.chunkSize == (if chunkSize == 0 then 1 else chunkSize)
      ensures this.windowCapacity == (if windowCapacity == 0 then 1 else windowCapacity)
    {
      this.source, this.bytesTotal := source, bytesTotal;
      this.chunkSize := if chunkSize == 0 then 1 else chunkSize;
      this.windowCapacity := if windowCapacity == 0 then 1 else windowCapacity;
      position, currentOffset, eofReached, inFlight, bytesDone := 0, 0, false, [], 0;
      this.initial, this.remote, issued, acknowledged, peak := remote, remote, [], [], 0;
      cancelToken, trouble := false, [];
    }

    ghost predicate Fresh()
      reads this
    {
      && currentOffset == 0 && bytesDone == 0 && inFlight == [] && !eofReached && issued == [] && remote == initial
      && trouble == []
    }

    ghost function Value(): State
      reads this
    {
      State(source, bytesTotal, chunkSize, windowCapacity, initial, position, currentOffset, eofReached,
            inFlight, bytesDone, remote, issued, acknowledged, peak)
    }

    /** What holds at every moment of every run, also after an error. */
    ghost predicate Safe()
      reads this
    {
      SafeState(Value())
    }

    ghost predicate Valid()
      reads this
    {
      Safe() && Steady(Value())
    }

    // ----- what the environment answers -----

    /** `cancel.is_cancelled()`: the token may be set at any moment and stays set. */
    method IsCancelled() returns (seen: bool)
      modifies this`cancelToken, this`trouble
      ensures seen == cancelToken && (old(cancelToken) ==> seen) && Value() == old(Value())
      ensures trouble == if seen then old(trouble) + [Failure.Cancelled] else old(trouble)
    {
      seen := *;
      seen := seen || cancelToken;
      cancelToken := seen;
      trouble := if seen then trouble + [Failure.Cancelled] else trouble;
    }

    /** A wait that the token may cut short; when both are ready either may win. */
    method CancelWins() returns (wins: bool)
      modifies this`cancelToken, this`trouble
      ensures (wins ==> cancelToken) && (old(cancelToken) ==> cancelToken) && Value() == old(Value())
      ensures trouble == if wins then old(trouble) + [Failure.Cancelled] else old(trouble)
    {
      var signalled := *;
      cancelToken := cancelToken || signalled;
      wins := *;
      wins := wins && cancelToken;
      trouble := if wins then trouble + [Failure.Cancelled] else trouble;
    }

    /** Report progress; the receiver may be gone. */
    method EmitProgress() returns (closed: bool)
      modifies this`trouble
      ensures trouble == (if closed then old(trouble) + [ProgressClosed] else old(trouble)) && Value() == old(Value())
    {
      closed := *;
      trouble := if closed then trouble + [ProgressClosed] else trouble;
    }

    /** One read: at least a byte while there are any, none at the end of the source. */
    method ReadInto(space: nat) returns (failed: bool, more: seq<byte>)
      requires space >= 1 && position <= |source|
      modifies this`position, this`trouble
      ensures trouble == if failed then old(trouble) + [ReadFailed] else old(trouble)
      ensures !failed ==> |more| <= space && (more == [] <==> old(position) == |source|)
      ensures !failed ==> position == old(position) + |more| <= |source| && more == source[old(position)..position]
      ensures failed ==> position == old(position)
    {
      failed := *;
      trouble := if failed then trouble + [ReadFailed] else trouble;
      more := [];
      if !failed && position < |source| {
        var n: nat :| 1 <= n <= space && position + n <= |source|;
        more := source[position..position + n];
        position := position + n;
      }
    }

    /** Read until the chunk is full or the source ends. */
    method FillBuffer(toRead: nat) returns (failure: Option<Failure>, buffer: seq<byte>, ended: bool)
      requires position == currentOffset <= |source|
      modifies this`position, this`cancelToken, this`trouble
      ensures currentOffset <= position <= |source|
      ensures trouble == After(old(trouble), failure)
      ensures failure.Some? ==> failure.value in {Failure.Cancelled, ReadFailed}
      ensures failure.None? ==>
                && |buffer| <= toRead
                && position == currentOffset + |buffer| && buffer == source[currentOffset..position]
                && (ended ==> position == |source|) && (!ended ==> |buffer| == toRead)
    {
      failure, buffer, ended := None, [], false;
      while |buffer| < toRead && !ended
        invariant |buffer| <= toRead
        invariant position == currentOffset + |buffer| <= |source|
        invariant buffer == source[currentOffset..position]
        invariant ended ==> position == |source|
        invariant trouble == old(trouble) && failure == None
        decreases toRead - |buffer|, !ended
      {
        var cancelled := CancelWins();
        if cancelled {
          failure := Some(Failure.Cancelled);
          return;
        }
        var failed, more := ReadInto(toRead - |buffer|);
        if failed {
          failure := Some(ReadFailed);
          return;
        }
        buffer := buffer + more;
        ended := more == [];
      }
    }

    /** Read the next chunk, if the stated length and the source leave one. */
    method ReadChunk() returns (failure: Option<Failure>, buffer: seq<byte>)
      requires position == currentOffset <= |source| && chunkSize >= 1 && !eofReached
      requires bytesTotal.Some? ==> currentOffset <= bytesTotal.value
      modifies this`position, this`eofReached, this`cancelToken, this`trouble
      ensures currentOffset <= position <= |source|
      ensures trouble == After(old(trouble), failure)
      ensures failure.Some? ==> failure.value in {Failure.Cancelled, ReadFailed}
      ensures failure.None? ==>
                && |buffer| <= chunkSize
                && position == currentOffset + |buffer| && buffer == source[currentOffset..position]
                && (bytesTotal.Some? ==> position <= bytesTotal.value)
                && (eofReached ==> position == |source| || bytesTotal == Some(position))
                && (buffer == [] ==> eofReached)
                && (!eofReached ==> |buffer| == if bytesTotal.Some? && bytesTotal.value - currentOffset < chunkSize
                                                then bytesTotal.value - currentOffset else chunkSize)
    {
      if bytesTotal.Some? && currentOffset >= bytesTotal.value {
        eofReached := true;
        return None, [];
      }
      var toRead := if bytesTotal.Some? then NextChunkLen(bytesTotal.value - currentOffset, chunkSize) else chunkSize;
      var ended;
      failure, buffer, ended := FillBuffer(toRead);
      if failure.None? && (ended || buffer == []) {
        eofReached := true;
      }
    }

    /** One turn of the filling loop: issue one more chunk, or notice that there is none. */
    method SpawnOne() returns (failure: Option<Failure>)
      requires Valid() && |inFlight| < windowCapacity && !eofReached
      modifies this`position, this`currentOffset, this`eofReached, this`inFlight, this`issued, this`peak,
               this`cancelToken, this`trouble
      ensures Safe()
      ensures trouble == After(old(trouble), failure)
      ensures failure.Some? ==> failure.value in {Failure.Cancelled, ReadFailed}
      ensures failure.None? ==> Valid() && (inFlight == old(inFlight) ==> eofReached)
      ensures inFlight == old(inFlight) || |inFlight| == |old(inFlight)| + 1
      ensures Remaining() <= old(Remaining())
    {
      ghost var here := Value();
      var buffer;
      failure, buffer := ReadChunk();
      ReadSafe(here, Value());
      if failure.None? && buffer != [] {
        IssueSafe(Value(), buffer);
        Issue(buffer);
      }
    }

    /** Fill the window. */
    method SpawnWriteRequests() returns (failure: Option<Failure>)
      requires Valid()
      modifies this`position, this`currentOffset, this`eofReached, this`inFlight, this`issued, this`peak,
               this`cancelToken, this`trouble
      ensures Safe()
      ensures trouble == After(old(trouble), failure)
      ensures failure.Some? ==> failure.value in {Failure.Cancelled, ReadFailed}
      ensures failure.None? ==> Valid() && (|inFlight| == windowCapacity || eofReached)
      ensures Remaining() <= old(Remaining())
    {
      failure := None;
      while |inFlight| < windowCapacity && !eofReached
        invariant Valid() && failure == None && trouble == old(trouble)
        invariant Remaining() <= old(Remaining())
        decreases windowCapacity - |inFlight|, !eofReached
      {
        failure := SpawnOne();
        if failure.Some? {
          return;
        }
      }
    }

    /** Reads and completions still to come: it falls with every chunk issued and every chunk joined. */
    ghost function Remaining(): int
      reads this
    {
      2 * (|source| - currentOffset) + |inFlight|
    }

    /** Put the buffer in flight at the current offset. */
    method Issue(buffer: seq<byte>)
      modifies this`currentOffset, this`inFlight, this`issued, this`peak
      ensures Value() == Issued(old(Value()), buffer)
    {
      var chunk := Chunk(currentOffset, buffer);
      issued := issued + [chunk];
      currentOffset := currentOffset + |buffer|;
      inFlight := inFlight + [chunk];
      peak := if |inFlight| > peak then |inFlight| else peak;
    }

    /** The server applies bytes of outstanding writes; `k` has been applied in full when `all` is set. */
    ghost method ServerWrites(k: nat, all: bool)
      requires Valid() && k < |inFlight|
      modifies this`remote
      ensures Valid() && (all ==> Written(remote, inFlight[k]))
    {
      ServerCan(remote, inFlight, k, all);
      var later: File :| ServerMay(remote, later, inFlight, k, all);
      ghost var before := Value();
      ServerSafe(before, later);
      remote := later;
      assert Value() == before.(remote := later);
    }

    /** Take the acknowledged write `k` out of flight. */
    method Acknowledge(k: nat)
      requires Valid() && k < |inFlight| && Written(remote, inFlight[k])
      modifies this`bytesDone, this`acknowledged, this`inFlight
      ensures Valid() && Value() == AcknowledgedAt(old(Value()), k)
      ensures |inFlight| == |old(inFlight)| - 1
    {
      AcknowledgeSafe(Value(), k);
      ghost var before := Value();
      bytesDone := bytesDone + |inFlight[k].data|;
      acknowledged := acknowledged + [inFlight[k]];
      inFlight := inFlight[..k] + inFlight[k + 1..];
      assert Value() == AcknowledgedAt(before, k);
    }

    /** How a write ends: acknowledged with success, refused by the server, or its task crashed. */
    method Complete() returns (completion: Completion)
      modifies this`trouble
      ensures Value() == old(Value())
      ensures trouble == match completion
                         case Acknowledged => old(trouble)
                         case Refused => old(trouble) + [WriteFailed]
                         case Crashed => old(trouble) + [WorkerFailed]
    {
      completion := *;
      match completion
      case Acknowledged =>
      case Refused => trouble := trouble + [WriteFailed];
      case Crashed => trouble := trouble + [WorkerFailed];
    }

    /** One outstanding write completes, whichever it is and however it ends. */
    method JoinNext() returns (completion: Completion)
      requires Valid() && inFlight != []
      modifies this`remote, this`bytesDone, this`acknowledged, this`inFlight, this`trouble
      ensures Valid()
      ensures trouble == match completion
                         case Acknowledged => old(trouble)
                         case Refused => old(trouble) + [WriteFailed]
                         case Crashed => old(trouble) + [WorkerFailed]
      ensures completion.Acknowledged? ==> |inFlight| == |old(inFlight)| - 1
    {
      var k: nat :| k < |inFlight|;
      completion := Complete();
      ServerWrites(k, completion.Acknowledged?);
      if completion.Acknowledged? {
        Acknowledge(k);
      }
    }

    /** Wait for one write to end, and fill the window again if it was acknowledged. */
    method JoinAndRefill() returns (failure: Option<Failure>)
      requires Valid() && inFlight != []
      modifies this
      ensures Safe() && failure != Some(Incomplete) && trouble == After(old(trouble), failure)
      ensures failure.None? ==> Valid() && Remaining() < old(Remaining())
    {
      var cancelled := CancelWins();
      if cancelled {
        return Some(Failure.Cancelled);
      }
      var completion := JoinNext();
      match completion {
        case Crashed =>
          failure := Some(WorkerFailed);
        case Refused =>
          failure := Some(WriteFailed);
        case Acknowledged =>
          failure := SpawnWriteRequests();
      }
    }

    /** One round: fill the window, join one write, fill the window again. */
    method Round() returns (failure: Option<Failure>, drained: bool)
      requires Valid()
      modifies this
      ensures Safe() && failure != Some(Incomplete) && trouble == After(old(trouble), failure)
      ensures failure.None? ==> Valid() && (drained ==> inFlight == [] && eofReached)
      ensures failure.None? && !drained ==> Remaining() < old(Remaining())
    {
      failure := SpawnWriteRequests();
      drained := failure.None? && inFlight == [];
      if failure.None? && !drained {
        failure := JoinAndRefill();
      }
    }

    /** The loop of the upload: rounds, until nothing is left to send or to wait for. */
    method Pump() returns (failure: Option<Failure>)
      requires Valid()
      modifies this
      ensures Safe() && failure != Some(Incomplete) && trouble == After(old(trouble), failure)
      ensures failure.None? ==> Valid() && inFlight == [] && eofReached
      ensures old(cancelToken) ==> failure == Some(Failure.Cancelled) && Value() == old(Value())
    {
      while true
        invariant Valid() && trouble == old(trouble)
        invariant old(cancelToken) ==> cancelToken && Value() == old(Value())
        decreases Remaining()
      {
        var cancelled := IsCancelled();
        if cancelled {
          return Some(Failure.Cancelled);
        }
        var drained;
        failure, drained := Round();
        if failure.Some? || drained {
          return;
        }
        var due := *;
        if due {
          var closed := EmitProgress();
          if closed {
            return Some(ProgressClosed);
          }
        }
      }
    }

    /**
     Whatever the reads, completions, cancellations and failures: no byte of the
     remote file is ever corrupted, chunks tile what was issued, the window holds;
     success is a full copy of the stated length, or of the whole source. The first
     adverse answer of the environment ends the upload with its own error, and one
     without any succeeds, unless the source is shorter than stated. An upload that
     is cancelled before it starts sends nothing.
     */
    method UploadFrom() returns (result: Result)
      requires Valid() && Fresh()
      modifies this
      ensures Safe()
      ensures result.Ok? ==>
                && Copied(Value(), result.bytes) && inFlight == [] && bytesDone == result.bytes
                && multiset(issued) == multiset(acknowledged)
      ensures result == Err(Incomplete) ==> Copied(Value(), |source|)
      ensures if trouble == [] then
                result == if bytesTotal.Some? && |source| < bytesTotal.value then Err(Incomplete)
                          else Ok(if bytesTotal.Some? then bytesTotal.value else |source|)
              else |trouble| == 1 && result == Err(trouble[0])
      ensures old(cancelToken) ==> result == Err(Failure.Cancelled) && issued == []
    {
      if bytesTotal == Some(0) {
        var cancelled := IsCancelled();
        if cancelled {
          return Err(Failure.Cancelled);
        }
        var closed := EmitProgress();
        if closed {
          return Err(ProgressClosed);
        }
        return Ok(0);
      }
      var failure := Pump();
      if failure.Some? {
        return Err(failure.value);
      }
      DrainedIsCopied(Value());
      if bytesTotal.Some? && bytesDone != bytesTotal.value {
        return Err(Incomplete);
      }
      var closed := EmitProgress();
      if closed {
        return Err(ProgressClosed);
      }
      return Ok(bytesDone);
    }
  }
}
