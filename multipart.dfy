/**
 * The chunked transfer engine (`uploadFileMultipart`, app.js): a file of `size` bytes is
 * sent either as one `upload` call or as a multipart session of fixed-size parts numbered
 * from 1, finalised with the ordered list of part confirmations and aborted once on any failure.
 *
 * The storage client is an oracle: `Storage` fixes in advance how every call it can receive
 * is answered, and the method returns the trace of calls it made and the progress reports
 * it issued, so that counting, ordering and cleanup can be stated exactly.
 */
module Multipart {
  import opened Wrappers

  const MiB: nat := 1024 * 1024
  /** The floor on the chunk size: storage backends refuse smaller multipart parts. */
  const MinChunkSize: nat := 5 * MiB

  /** `Math.max(uploadChunkSize || 0, 5 MiB)`; the configured size may be absent. */
  function EffectiveChunkSize(configured: Option<int>): (c: nat)
    ensures c >= MinChunkSize && c >= configured.GetOr(0)
    ensures c == MinChunkSize || c == configured.GetOr(0)
  {
    var asked := configured.GetOr(0);
    if asked > MinChunkSize then asked else MinChunkSize
  }

  /** One planned part: its number and the byte range [lo, hi) of the file it carries. */
  datatype Slice = Slice(partNumber: nat, lo: nat, hi: nat)

  /** How the storage answers `uploadPart`: an error, or data that may carry an etag. */
  datatype PartReply = PartError | PartOk(etag: Option<string>)

  /**
   * The storage oracle. `multipart` says whether the client offers `createMultipartUpload`;
   * `created` is the session id, `None` when creation errs or returns no id; an empty id is
   * falsy and refused like a missing one (`SessionCreated`).
   */
  datatype Storage = Storage(
    multipart: bool,
    uploadOk: bool,
    created: Option<string>,
    partReply: nat -> PartReply,
    completeOk: bool)

  /** `!(createError || !createData?.id)`: creation gave a non-empty session id. */
  predicate SessionCreated(storage: Storage) {
    storage.created.Some? && storage.created.value != ""
  }

  /** One `(partNumber, etag)` entry of the list handed to `completeMultipartUpload`. */
  datatype PartRef = PartRef(partNumber: nat, etag: Option<string>)

  /** A call made on the storage client. */
  datatype Call =
    | Upload(path: string)
    | CreateMultipart(path: string, fileSize: nat)
    | UploadPart(uploadId: string, partNumber: nat, lo: nat, hi: nat)
    | Complete(uploadId: string, parts: seq<PartRef>)
    | Abort(uploadId: string)

  /** One `onProgress(uploaded, total)` report. */
  datatype Progress = Progress(uploaded: int, total: nat)

  /** What `uploadFileMultipart` throws. */
  datatype Failure = UploadFailed | CreateFailed | PartFailed(partNumber: nat) | CompleteFailed

  /** What it resolves to: `{ path }` for a single upload, `{ uploadId }` for a multipart one. */
  datatype Uploaded = WholeObject(path: string) | MultipartObject(uploadId: string)

  // ---------------------------------------------------------------------------
  // The plan: the parts the loop slices from the file.

  /** The parts sliced from `offset` on, numbered from `partNumber`: `[offset, min(offset + chunk, size))` each. */
  function Plan(size: nat, chunk: nat, offset: nat, partNumber: nat): seq<Slice>
    requires chunk > 0
    decreases size - offset
  {
    if offset >= size then []
    else
      var hi := if offset + chunk < size then offset + chunk else size;
      [Slice(partNumber, offset, hi)] + Plan(size, chunk, offset + chunk, partNumber + 1)
  }

  /** All parts of a file of `size` bytes. */
  function Parts(size: nat, chunk: nat): seq<Slice>
    requires chunk > 0
  {
    Plan(size, chunk, 0, 1)
  }

  /** Each part directly follows the one before it. */
  predicate Contiguous(s: seq<Slice>) {
    forall i :: 0 < i < |s| ==> s[i - 1].hi == s[i].lo
  }

  /** A plan is empty exactly when it starts at or past the end, and otherwise begins at its offset. */
  lemma PlanStart(size: nat, chunk: nat, offset: nat, partNumber: nat)
    requires chunk > 0
    ensures var p := Plan(size, chunk, offset, partNumber);
      (p == [] <==> offset >= size) && (p != [] ==> p[0] == Slice(partNumber, offset, if offset + chunk < size then offset + chunk else size))
  {
  }

  /** Before the end, a plan is its first part followed by the plan from the next offset. */
  lemma PlanStep(size: nat, chunk: nat, offset: nat, partNumber: nat)
    requires chunk > 0 && offset < size
    ensures Plan(size, chunk, offset, partNumber)
      == [Slice(partNumber, offset, if offset + chunk < size then offset + chunk else size)] + Plan(size, chunk, offset + chunk, partNumber + 1)
  {
  }

  /** How many parts a plan has: the least `n` with `n * chunk` covering what is left of the file. */
  lemma {:induction false} PlanLength(size: nat, chunk: nat, offset: nat, partNumber: nat)
    requires chunk > 0
    ensures var n := |Plan(size, chunk, offset, partNumber)|;
      offset < size ==> (n - 1) * chunk < size - offset <= n * chunk
    decreases size - offset
  {
    if offset + chunk < size {
      PlanLength(size, chunk, offset + chunk, partNumber + 1);
      var n' := |Plan(size, chunk, offset + chunk, partNumber + 1)|;
      assert |Plan(size, chunk, offset, partNumber)| == n' + 1;
      assert (n' + 1) * chunk == n' * chunk + chunk;
    } else if offset < size {
      assert Plan(size, chunk, offset + chunk, partNumber + 1) == [];
    }
  }

  /** Parts are numbered consecutively from `partNumber`, each non-empty, inside the file from `offset` on, at most `chunk` long. */
  predicate NumberedWithin(p: seq<Slice>, size: nat, chunk: nat, offset: nat, partNumber: nat) {
    forall i :: 0 <= i < |p| ==>
      p[i].partNumber == partNumber + i && offset <= p[i].lo < p[i].hi <= size && p[i].hi - p[i].lo <= chunk
  }

  lemma {:induction false} PlanParts(size: nat, chunk: nat, offset: nat, partNumber: nat)
    requires chunk > 0
    ensures NumberedWithin(Plan(size, chunk, offset, partNumber), size, chunk, offset, partNumber)
    decreases size - offset
  {
    if offset < size {
      var p := Plan(size, chunk, offset, partNumber);
      var rest := Plan(size, chunk, offset + chunk, partNumber + 1);
      PlanParts(size, chunk, offset + chunk, partNumber + 1);
      PlanStart(size, chunk, offset, partNumber);
      assert p == [p[0]] + rest;
      forall i | 0 <= i < |p|
        ensures p[i].partNumber == partNumber + i && offset <= p[i].lo < p[i].hi <= size && p[i].hi - p[i].lo <= chunk
      {
        if i > 0 {
          assert p[i] == rest[i - 1];
        }
      }
    }
  }

  /** Parts follow one another without gaps; all but the last are exactly `chunk` long, and the last ends the file. */
  lemma {:induction false} PlanTiles(size: nat, chunk: nat, offset: nat, partNumber: nat)
    requires chunk > 0
    ensures var p := Plan(size, chunk, offset, partNumber);
      && Contiguous(p)
      && (forall i :: 0 <= i < |p| - 1 ==> p[i].hi - p[i].lo == chunk)
      && (p != [] ==> p[|p| - 1].hi == size)
    decreases size - offset
  {
    if offset < size {
      var p := Plan(size, chunk, offset, partNumber);
      var rest := Plan(size, chunk, offset + chunk, partNumber + 1);
      PlanTiles(size, chunk, offset + chunk, partNumber + 1);
      PlanStart(size, chunk, offset + chunk, partNumber + 1);
      assert p == [p[0]] + rest;
      assert forall i :: 1 <= i < |p| ==> p[i] == rest[i - 1];
    }
  }

  /** All the shape facts about a plan, for the callers that need them together. */
  lemma PlanShape(size: nat, chunk: nat, offset: nat, partNumber: nat)
    requires chunk > 0
    ensures var p := Plan(size, chunk, offset, partNumber);
      && (p == [] <==> offset >= size)
      && (offset < size ==> (|p| - 1) * chunk < size - offset <= |p| * chunk)
      && (forall i :: 0 <= i < |p| ==> p[i].partNumber == partNumber + i)
      && (forall i :: 0 <= i < |p| ==> p[i].lo < p[i].hi <= size && p[i].hi - p[i].lo <= chunk)
      && (forall i :: 0 <= i < |p| - 1 ==> p[i].hi - p[i].lo == chunk)
      && Contiguous(p)
      && (p != [] ==> p[0].lo == offset && p[|p| - 1].hi == size)
  {
    PlanStart(size, chunk, offset, partNumber);
    PlanLength(size, chunk, offset, partNumber);
    PlanParts(size, chunk, offset, partNumber);
    PlanTiles(size, chunk, offset, partNumber);
  }

  // ---------------------------------------------------------------------------
  // Arithmetic on the part count.

  lemma MulAwayFromZero(d: int, c: int)
    requires c > 0
    ensures d >= 1 ==> d * c >= c
    ensures d <= -1 ==> d * c <= -c
  {
  }

  lemma DivUnique(x: int, c: int, q: int, r: int)
    requires c > 0 && 0 <= r < c && x == q * c + r
    ensures x / c == q
  {
    var q', r' := x / c, x % c;
    assert (q' - q) * c == r - r';
    MulAwayFromZero(q' - q, c);
  }

  /** For a non-empty file there are exactly `ceil(size / chunk)` parts, and none for an empty one. */
  lemma PartCount(size: nat, chunk: nat)
    requires chunk > 0
    ensures |Parts(size, chunk)| == (size + chunk - 1) / chunk
  {
    PlanShape(size, chunk, 0, 1);
    var n := |Parts(size, chunk)|;
    if size > 0 {
      DivUnique(size + chunk - 1, chunk, n, size + chunk - 1 - n * chunk);
    } else {
      DivUnique(chunk - 1, chunk, 0, chunk - 1);
    }
  }

  // ---------------------------------------------------------------------------
  // Views of the parts done so far, each extended one part at a time.

  /** Bytes carried by the given parts. */
  function Covered(done: seq<Slice>): int {
    if done == [] then 0 else Covered(done[..|done| - 1]) + (done[|done| - 1].hi - done[|done| - 1].lo)
  }

  /** The `uploadPart` calls for the given parts, in order. */
  function UploadCalls(uploadId: string, done: seq<Slice>): (r: seq<Call>)
    ensures |r| == |done|
  {
    if done == [] then []
    else UploadCalls(uploadId, done[..|done| - 1]) + [UploadPart(uploadId, done[|done| - 1].partNumber, done[|done| - 1].lo, done[|done| - 1].hi)]
  }

  /** The etag of an accepted part (absent when the storage returned none). */
  function EtagOf(reply: PartReply): Option<string> {
    if reply.PartOk? then reply.etag else None
  }

  /** The `parts` list the loop builds: one entry per uploaded part with the etag the storage returned for it. */
  function Manifest(done: seq<Slice>, storage: Storage): (r: seq<PartRef>)
    ensures |r| == |done|
  {
    if done == [] then []
    else
      var last := done[|done| - 1];
      Manifest(done[..|done| - 1], storage) + [PartRef(last.partNumber, EtagOf(storage.partReply(last.partNumber)))]
  }

  /** The progress reports issued after each of the given parts. */
  function ProgressOf(done: seq<Slice>, size: nat): (r: seq<Progress>)
    ensures |r| == |done|
  {
    if done == [] then [] else ProgressOf(done[..|done| - 1], size) + [Progress(Covered(done), size)]
  }

  /** How many leading parts the storage accepts before the first refused one. */
  function AcceptedPrefix(plan: seq<Slice>, storage: Storage): (n: nat)
    ensures n <= |plan|
    ensures n < |plan| ==> storage.partReply(plan[n].partNumber).PartError?
  {
    if plan == [] || storage.partReply(plan[0].partNumber).PartError? then 0
    else 1 + AcceptedPrefix(plan[1..], storage)
  }

  /** Every part before the first refused one was accepted. */
  lemma {:induction false} AcceptedBeforeRefused(plan: seq<Slice>, storage: Storage)
    ensures forall i :: 0 <= i < AcceptedPrefix(plan, storage) ==> storage.partReply(plan[i].partNumber).PartOk?
  {
    if plan != [] && storage.partReply(plan[0].partNumber).PartOk? {
      AcceptedBeforeRefused(plan[1..], storage);
      forall i | 0 < i < AcceptedPrefix(plan, storage)
        ensures storage.partReply(plan[i].partNumber).PartOk?
      {
        assert plan[i] == plan[1..][i - 1];
      }
    }
  }

  lemma {:induction false} AcceptedPrefixSplit(done: seq<Slice>, rest: seq<Slice>, storage: Storage)
    requires forall i :: 0 <= i < |done| ==> storage.partReply(done[i].partNumber).PartOk?
    ensures AcceptedPrefix(done + rest, storage) == |done| + AcceptedPrefix(rest, storage)
  {
    if done != [] {
      assert (done + rest)[1..] == done[1..] + rest;
      AcceptedPrefixSplit(done[1..], rest, storage);
    } else {
      assert done + rest == rest;
    }
  }

  /** In a contiguous run of parts, the bytes covered are the distance from the first start to the last end. */
  lemma {:induction false} CoveredContiguous(done: seq<Slice>)
    requires done != [] && Contiguous(done)
    ensures Covered(done) == done[|done| - 1].hi - done[0].lo
  {
    if |done| > 1 {
      var front := done[..|done| - 1];
      assert Contiguous(front);
      CoveredContiguous(front);
    }
  }

  /** Progress after a prefix of the plan: each report is the end of its part, so reports never decrease and never pass `size`. */
  lemma ProgressOfPrefix(size: nat, chunk: nat, k: nat)
    requires chunk > 0 && k <= |Parts(size, chunk)|
    ensures var reports := ProgressOf(Parts(size, chunk)[..k], size);
      && (forall i :: 0 <= i < k ==> reports[i] == Progress(Parts(size, chunk)[i].hi, size))
      && (forall i :: 0 <= i < k ==> 0 < reports[i].uploaded <= size)
      && (forall i, j :: 0 <= i <= j < k ==> reports[i].uploaded <= reports[j].uploaded)
      && (k == |Parts(size, chunk)| && k > 0 ==> reports[k - 1].uploaded == size)
  {
    var plan := Parts(size, chunk);
    PlanShape(size, chunk, 0, 1);
    ReportsArePartEnds(plan, size, k);
    forall i, j | 0 <= i <= j < k
      ensures plan[i].hi <= plan[j].hi
    {
      HiIncreasing(plan, i, j);
    }
  }

  /** In a contiguous plan starting at byte 0, the report after each part is that part's end. */
  lemma ReportsArePartEnds(plan: seq<Slice>, size: nat, k: nat)
    requires Contiguous(plan) && k <= |plan| && (plan != [] ==> plan[0].lo == 0)
    ensures forall i :: 0 <= i < k ==> ProgressOf(plan[..k], size)[i] == Progress(plan[i].hi, size)
  {
    forall i | 0 <= i < k
      ensures ProgressOf(plan[..k], size)[i] == Progress(plan[i].hi, size)
    {
      ProgressEntry(plan[..k], size, i);
      var pre := plan[..k][..i + 1];
      assert pre == plan[..i + 1];
      assert Contiguous(pre);
      CoveredContiguous(pre);
    }
  }

  lemma {:induction false} ProgressEntry(done: seq<Slice>, size: nat, i: nat)
    requires i < |done|
    ensures ProgressOf(done, size)[i] == Progress(Covered(done[..i + 1]), size)
  {
    if i < |done| - 1 {
      var front := done[..|done| - 1];
      ProgressEntry(front, size, i);
      assert front[..i + 1] == done[..i + 1];
    } else {
      assert done[..i + 1] == done;
    }
  }

  lemma {:induction false} HiIncreasing(p: seq<Slice>, i: nat, j: nat)
    requires Contiguous(p) && i <= j < |p|
    requires forall k :: 0 <= k < |p| ==> p[k].lo < p[k].hi
    ensures p[i].hi <= p[j].hi
    decreases j - i
  {
    if i < j {
      HiIncreasing(p, i + 1, j);
    }
  }

  // ---------------------------------------------------------------------------
  // Counting calls in a trace.

  function CountAborts(calls: seq<Call>): nat {
    if calls == [] then 0 else CountAborts(calls[..|calls| - 1]) + (if calls[|calls| - 1].Abort? then 1 else 0)
  }

  function CountCompletes(calls: seq<Call>): nat {
    if calls == [] then 0 else CountCompletes(calls[..|calls| - 1]) + (if calls[|calls| - 1].Complete? then 1 else 0)
  }

  lemma {:induction false} CountsAppend(a: seq<Call>, b: seq<Call>)
    ensures CountAborts(a + b) == CountAborts(a) + CountAborts(b)
    ensures CountCompletes(a + b) == CountCompletes(a) + CountCompletes(b)
    decreases |b|
  {
    if b == [] {
      assert a + b == a;
    } else {
      var b' := b[..|b| - 1];
      assert (a + b)[..|a + b| - 1] == a + b';
      CountsAppend(a, b');
    }
  }

  lemma {:induction false} UploadCallsCount(uploadId: string, done: seq<Slice>)
    ensures CountAborts(UploadCalls(uploadId, done)) == 0
    ensures CountCompletes(UploadCalls(uploadId, done)) == 0
  {
    if done != [] {
      var calls := UploadCalls(uploadId, done);
      assert calls[..|calls| - 1] == UploadCalls(uploadId, done[..|done| - 1]);
      UploadCallsCount(uploadId, done[..|done| - 1]);
    }
  }

  /** The promise on the reports of one run: all out of `size`, within `0..size`, never decreasing. */
  predicate OrderedReports(progress: seq<Progress>, size: nat) {
    && (forall i :: 0 <= i < |progress| ==> progress[i].total == size && 0 <= progress[i].uploaded <= size)
    && (forall i, j :: 0 <= i <= j < |progress| ==> progress[i].uploaded <= progress[j].uploaded)
  }

  lemma PrefixReportsOrdered(size: nat, chunk: nat, k: nat)
    requires chunk > 0 && k <= |Parts(size, chunk)|
    ensures OrderedReports(ProgressOf(Parts(size, chunk)[..k], size), size)
    ensures OrderedReports(ProgressOf(Parts(size, chunk)[..k], size) + [Progress(size, size)], size)
  {
    ProgressOfPrefix(size, chunk, k);
  }

  /** A session whose part `n + 1` is refused: one abort, no completion. */
  lemma FailedSessionCounts(path: string, size: nat, uploadId: string, plan: seq<Slice>, storage: Storage)
    requires AcceptedPrefix(plan, storage) < |plan|
    ensures CountAborts(SessionCalls(path, size, uploadId, plan, storage)) == 1
    ensures CountCompletes(SessionCalls(path, size, uploadId, plan, storage)) == 0
  {
    var n := AcceptedPrefix(plan, storage);
    var ups := UploadCalls(uploadId, plan[..n + 1]);
    assert SessionCalls(path, size, uploadId, plan, storage) == [CreateMultipart(path, size)] + ups + [Abort(uploadId)];
    UploadCallsCount(uploadId, plan[..n + 1]);
    CountsAppend([CreateMultipart(path, size)], ups);
    CountsAppend([CreateMultipart(path, size)] + ups, [Abort(uploadId)]);
  }

  /** A session whose parts are all accepted: one completion, and one abort exactly when completion fails. */
  lemma CompletedSessionCounts(path: string, size: nat, uploadId: string, plan: seq<Slice>, storage: Storage)
    requires AcceptedPrefix(plan, storage) == |plan|
    ensures CountAborts(SessionCalls(path, size, uploadId, plan, storage)) == (if storage.completeOk then 0 else 1)
    ensures CountCompletes(SessionCalls(path, size, uploadId, plan, storage)) == 1
  {
    var ups := UploadCalls(uploadId, plan);
    var fin := [Complete(uploadId, Manifest(plan, storage))];
    var tail: seq<Call> := if storage.completeOk then [] else [Abort(uploadId)];
    UploadCallsCount(uploadId, plan);
    CountsAppend([CreateMultipart(path, size)], ups);
    CountsAppend([CreateMultipart(path, size)] + ups, fin);
    CountsAppend([CreateMultipart(path, size)] + ups + fin, tail);
  }

  /**
   * What the loop has recorded after sending the accepted parts `done`: their `uploadPart` calls,
   * their confirmations, the bytes they cover and a progress report after each.
   */
  predicate Tracks(done: seq<Slice>, uploadId: string, storage: Storage, size: nat,
                   partCalls: seq<Call>, parts: seq<PartRef>, uploadedBytes: int, progress: seq<Progress>)
  {
    && (forall i :: 0 <= i < |done| ==> storage.partReply(done[i].partNumber).PartOk?)
    && partCalls == UploadCalls(uploadId, done)
    && parts == Manifest(done, storage)
    && uploadedBytes == Covered(done)
    && progress == ProgressOf(done, size)
  }

  /** The state the loop reaches when the storage refuses the part after `done`. */
  lemma RefusedPartStep(plan: seq<Slice>, done: seq<Slice>, slice: Slice, rest: seq<Slice>, uploadId: string, storage: Storage, size: nat,
                        partCalls: seq<Call>, parts: seq<PartRef>, uploadedBytes: int, progress: seq<Progress>)
    requires plan == done + ([slice] + rest)
    requires Tracks(done, uploadId, storage, size, partCalls, parts, uploadedBytes, progress)
    requires storage.partReply(slice.partNumber).PartError?
    ensures AcceptedPrefix(plan, storage) == |done| < |plan|
    ensures partCalls + [UploadPart(uploadId, slice.partNumber, slice.lo, slice.hi)] == UploadCalls(uploadId, plan[..|done| + 1])
    ensures progress == ProgressOf(plan[..|done|], size)
  {
    AcceptedPrefixSplit(done, [slice] + rest, storage);
    assert plan[..|done| + 1] == done + [slice];
    assert (done + [slice])[..|done|] == done;
    assert plan[..|done|] == done;
  }

  /** The loop extends what it has recorded by one accepted part. */
  lemma AcceptedPartStep(done: seq<Slice>, slice: Slice, uploadId: string, storage: Storage, size: nat,
                         partCalls: seq<Call>, parts: seq<PartRef>, uploadedBytes: int, progress: seq<Progress>)
    requires Tracks(done, uploadId, storage, size, partCalls, parts, uploadedBytes, progress)
    requires storage.partReply(slice.partNumber).PartOk?
    ensures Tracks(done + [slice], uploadId, storage, size,
      partCalls + [UploadPart(uploadId, slice.partNumber, slice.lo, slice.hi)],
      parts + [PartRef(slice.partNumber, EtagOf(storage.partReply(slice.partNumber)))],
      uploadedBytes + (slice.hi - slice.lo),
      progress + [Progress(uploadedBytes + (slice.hi - slice.lo), size)])
  {
    var done' := done + [slice];
    assert done'[..|done|] == done;
    assert forall i :: 0 <= i < |done| ==> done'[i] == done[i];
  }

  /** When every planned part was accepted, the loop has recorded the whole plan. */
  lemma AllPartsSent(plan: seq<Slice>, uploadId: string, storage: Storage, size: nat,
                     partCalls: seq<Call>, parts: seq<PartRef>, uploadedBytes: int, progress: seq<Progress>)
    requires Tracks(plan, uploadId, storage, size, partCalls, parts, uploadedBytes, progress)
    ensures AcceptedPrefix(plan, storage) == |plan|
    ensures partCalls == UploadCalls(uploadId, plan) && parts == Manifest(plan, storage) && progress == ProgressOf(plan, size)
  {
    AcceptedPrefixSplit(plan, [], storage);
    assert plan + [] == plan;
  }

  // ---------------------------------------------------------------------------
  // The engine.

  /** The session trace of a multipart attempt whose session `uploadId` was created. */
  function SessionCalls(path: string, size: nat, uploadId: string, plan: seq<Slice>, storage: Storage): seq<Call>
  {
    var n := AcceptedPrefix(plan, storage);
    if n < |plan| then
      [CreateMultipart(path, size)] + UploadCalls(uploadId, plan[..n + 1]) + [Abort(uploadId)]
    else
      [CreateMultipart(path, size)] + UploadCalls(uploadId, plan)
      + [Complete(uploadId, Manifest(plan, storage))]
      + (if storage.completeOk then [] else [Abort(uploadId)])
  }

  /**
   * The `for` loop of `uploadFileMultipart` over a created session: slices the file, uploads
   * the parts in order, records each confirmation and reports progress after each part, and
   * stops at the first part the storage refuses (whose error the caller then handles).
   */
  method SendParts(size: nat, chunk: nat, uploadId: string, storage: Storage)
    returns (accepted: nat, partCalls: seq<Call>, parts: seq<PartRef>, progress: seq<Progress>)
    requires chunk > 0
    ensures accepted == AcceptedPrefix(Parts(size, chunk), storage)
    ensures accepted < |Parts(size, chunk)| ==>
      && partCalls == UploadCalls(uploadId, Parts(size, chunk)[..accepted + 1])
      && progress == ProgressOf(Parts(size, chunk)[..accepted], size)
    ensures accepted == |Parts(size, chunk)| ==>
      && partCalls == UploadCalls(uploadId, Parts(size, chunk))
      && parts == Manifest(Parts(size, chunk), storage)
      && progress == ProgressOf(Parts(size, chunk), size)
  {
    ghost var plan := Parts(size, chunk);
    ghost var done: seq<Slice> := [];
    partCalls, parts, progress := [], [], [];
    var uploadedBytes := 0;
    var offset := 0;
    var partNumber := 1;
    while offset < size
      invariant plan == done + Plan(size, chunk, offset, partNumber)
      invariant partNumber == |done| + 1
      invariant Tracks(done, uploadId, storage, size, partCalls, parts, uploadedBytes, progress)
      decreases size - offset
    {
      var hi := if offset + chunk < size then offset + chunk else size;
      ghost var slice := Slice(partNumber, offset, hi);
      ghost var rest := Plan(size, chunk, offset + chunk, partNumber + 1);
      PlanStep(size, chunk, offset, partNumber);
      assert plan == done + ([slice] + rest) == (done + [slice]) + rest;
      var reply := storage.partReply(partNumber);
      if reply.PartError? {
        RefusedPartStep(plan, done, slice, rest, uploadId, storage, size, partCalls, parts, uploadedBytes, progress);
        partCalls := partCalls + [UploadPart(uploadId, partNumber, offset, hi)];
        return partNumber - 1, partCalls, parts, progress;
      }
      AcceptedPartStep(done, slice, uploadId, storage, size, partCalls, parts, uploadedBytes, progress);
      partCalls := partCalls + [UploadPart(uploadId, partNumber, offset, hi)];
      parts := parts + [PartRef(partNumber, EtagOf(reply))];
      uploadedBytes := uploadedBytes + (hi - offset);
      progress := progress + [Progress(uploadedBytes, size)];
      done := done + [slice];
      offset := offset + chunk;
      partNumber := partNumber + 1;
    }
    PlanStart(size, chunk, offset, partNumber);
    assert done == plan;
    AllPartsSent(plan, uploadId, storage, size, partCalls, parts, uploadedBytes, progress);
    accepted := partNumber - 1;
  }

  /** Everything one call of `uploadFileMultipart` does: its outcome, its storage calls, its progress reports. */
  datatype Run = Run(result: Result<Uploaded, Failure>, calls: seq<Call>, progress: seq<Progress>)

  /**
   * The reference behaviour of the engine against a given storage: a plain upload without
   * multipart support; otherwise a session that fails at creation, at the first refused part
   * (then aborted), or at completion (then aborted), or succeeds.
   */
  function ExpectedRun(size: nat, configuredChunk: Option<int>, path: string, storage: Storage): Run {
    if !storage.multipart then
      if storage.uploadOk then Run(Ok(WholeObject(path)), [Upload(path)], [Progress(size, size)])
      else Run(Err(UploadFailed), [Upload(path)], [])
    else if !SessionCreated(storage) then
      Run(Err(CreateFailed), [CreateMultipart(path, size)], [])
    else
      var id := storage.created.value;
      var plan := Parts(size, EffectiveChunkSize(configuredChunk));
      var n := AcceptedPrefix(plan, storage);
      var calls := SessionCalls(path, size, id, plan, storage);
      if n < |plan| then Run(Err(PartFailed(n + 1)), calls, ProgressOf(plan[..n], size))
      else if storage.completeOk then Run(Ok(MultipartObject(id)), calls, ProgressOf(plan, size) + [Progress(size, size)])
      else Run(Err(CompleteFailed), calls, ProgressOf(plan, size))
  }

  /**
   * `uploadFileMultipart(file, storagePath, onProgress)` for a file of `size` bytes: returns
   * the outcome, every call made on the storage client, and every progress report.
   */
  method UploadFileMultipart(size: nat, configuredChunk: Option<int>, path: string, storage: Storage)
    returns (result: Result<Uploaded, Failure>, calls: seq<Call>, progress: seq<Progress>)
    ensures Run(result, calls, progress) == ExpectedRun(size, configuredChunk, path, storage)
  {
    var chunk := EffectiveChunkSize(configuredChunk);

    if !storage.multipart {
      calls := [Upload(path)];
      if !storage.uploadOk {
        return Err(UploadFailed), calls, [];
      }
      return Ok(WholeObject(path)), calls, [Progress(size, size)];
    }

    calls := [CreateMultipart(path, size)];
    if !SessionCreated(storage) {
      return Err(CreateFailed), calls, [];
    }
    var uploadId := storage.created.value;

    var accepted, partCalls, parts;
    accepted, partCalls, parts, progress := SendParts(size, chunk, uploadId, storage);
    calls := calls + partCalls;
    if accepted < |Parts(size, chunk)| {
      // The thrown part error reaches the catch block: abort once, rethrow.
      calls := calls + [Abort(uploadId)];
      return Err(PartFailed(accepted + 1)), calls, progress;
    }
    calls := calls + [Complete(uploadId, parts)];
    if !storage.completeOk {
      // The thrown completion error reaches the catch block: abort once, rethrow.
      calls := calls + [Abort(uploadId)];
      return Err(CompleteFailed), calls, progress;
    }
    progress := progress + [Progress(size, size)];
    result := Ok(MultipartObject(uploadId));
  }

  // ---------------------------------------------------------------------------
  // What the engine promises, proved of the reference behaviour.

  /**
   * Cleanup: a created session that fails is aborted exactly once, and nothing else is ever
   * aborted; a failed part is never followed by completion; a success finalises exactly one
   * session (none on the single-upload path).
   */
  lemma RunCleanup(size: nat, configuredChunk: Option<int>, path: string, storage: Storage)
    ensures var run := ExpectedRun(size, configuredChunk, path, storage);
      && CountAborts(run.calls) == (if storage.multipart && SessionCreated(storage) && run.result.Err? then 1 else 0)
      && (run.result.Err? && run.result.error.PartFailed? ==> CountCompletes(run.calls) == 0)
      && (run.result.Ok? ==> CountCompletes(run.calls) == (if storage.multipart then 1 else 0))
  {
    if storage.multipart && SessionCreated(storage) {
      var plan := Parts(size, EffectiveChunkSize(configuredChunk));
      if AcceptedPrefix(plan, storage) < |plan| {
        FailedSessionCounts(path, size, storage.created.value, plan, storage);
      } else {
        CompletedSessionCounts(path, size, storage.created.value, plan, storage);
      }
    }
  }

  /** A session created with an empty id is a failed creation: nothing is uploaded and nothing is aborted. */
  lemma EmptySessionIdRefused(size: nat, configuredChunk: Option<int>, path: string, storage: Storage)
    requires storage.multipart && storage.created == Some("")
    ensures ExpectedRun(size, configuredChunk, path, storage) == Run(Err(CreateFailed), [CreateMultipart(path, size)], [])
  {
  }

  /**
   * Progress: every report is out of `size`, none exceeds it, they never decrease, and a
   * successful run ends with `(size, size)`; the single-upload path reports exactly that, once.
   */
  lemma RunProgress(size: nat, configuredChunk: Option<int>, path: string, storage: Storage)
    ensures var run := ExpectedRun(size, configuredChunk, path, storage);
      && OrderedReports(run.progress, size)
      && (run.result.Ok? ==> |run.progress| > 0 && run.progress[|run.progress| - 1] == Progress(size, size))
      && (!storage.multipart && run.result.Ok? ==> run.progress == [Progress(size, size)])
  {
    if storage.multipart && SessionCreated(storage) {
      var chunk := EffectiveChunkSize(configuredChunk);
      var plan := Parts(size, chunk);
      var n := AcceptedPrefix(plan, storage);
      PrefixReportsOrdered(size, chunk, n);
      assert plan[..|plan|] == plan;
    }
  }

  /**
   * A successful multipart run uploads every planned part exactly once, in part-number order,
   * and hands `completeMultipartUpload` one entry per part, numbered 1..n in order, each with the
   * etag the storage returned for that part.
   */
  lemma RunCompletesWithAllParts(size: nat, configuredChunk: Option<int>, path: string, storage: Storage)
    requires storage.multipart
    ensures var run := ExpectedRun(size, configuredChunk, path, storage);
      var plan := Parts(size, EffectiveChunkSize(configuredChunk));
      run.result.Ok? ==>
        && |run.calls| == |plan| + 2
        && run.calls[0] == CreateMultipart(path, size)
        && (forall i :: 1 <= i <= |plan| ==> run.calls[i].UploadPart? && run.calls[i].partNumber == i)
        && run.calls[|plan| + 1].Complete?
        && |run.calls[|plan| + 1].parts| == |plan|
        && NumberedFromOne(run.calls[|plan| + 1].parts)
        && EtagsAsReplied(run.calls[|plan| + 1].parts, storage)
  {
    var run := ExpectedRun(size, configuredChunk, path, storage);
    var chunk := EffectiveChunkSize(configuredChunk);
    var plan := Parts(size, chunk);
    if run.result.Ok? {
      var id := storage.created.value;
      PlanParts(size, chunk, 0, 1);
      UploadCallsAt(id, plan);
      ManifestAt(plan, storage);
      var ups := UploadCalls(id, plan);
      assert run.calls == [CreateMultipart(path, size)] + ups + [Complete(id, Manifest(plan, storage))];
      forall i | 1 <= i <= |plan|
        ensures run.calls[i].UploadPart? && run.calls[i].partNumber == i
      {
        assert run.calls[i] == ups[i - 1];
      }
    }
  }

  /** The i-th entry carries the etag the storage returned for part i + 1. */
  predicate EtagsAsReplied(parts: seq<PartRef>, storage: Storage) {
    forall i :: 0 <= i < |parts| ==> parts[i].etag == EtagOf(storage.partReply(i + 1))
  }

  /** Entries numbered 1, 2, 3, ... in order. */
  predicate NumberedFromOne(parts: seq<PartRef>) {
    forall i :: 0 <= i < |parts| ==> parts[i].partNumber == i + 1
  }

  /**
   * The planned parts tile the file: numbered 1..n, contiguous from byte 0 to byte `size`,
   * every part but the last exactly one chunk long, and their sizes add up to `size`.
   */
  lemma PartsTileFile(size: nat, chunk: nat)
    requires chunk > 0
    ensures var p := Parts(size, chunk);
      && (forall i :: 0 <= i < |p| ==> p[i].partNumber == i + 1 && p[i].lo < p[i].hi)
      && Contiguous(p)
      && (p != [] ==> p[0].lo == 0 && p[|p| - 1].hi == size)
      && (forall i :: 0 <= i < |p| - 1 ==> p[i].hi - p[i].lo == chunk)
      && (p != [] ==> 0 < p[|p| - 1].hi - p[|p| - 1].lo <= chunk)
      && Covered(p) == size
  {
    var p := Parts(size, chunk);
    PlanShape(size, chunk, 0, 1);
    if p != [] {
      CoveredContiguous(p);
    }
  }

  lemma {:induction false} UploadCallsAt(uploadId: string, done: seq<Slice>)
    ensures forall i :: 0 <= i < |done| ==>
      UploadCalls(uploadId, done)[i] == UploadPart(uploadId, done[i].partNumber, done[i].lo, done[i].hi)
  {
    if done != [] {
      UploadCallsAt(uploadId, done[..|done| - 1]);
    }
  }

  lemma {:induction false} ManifestAt(done: seq<Slice>, storage: Storage)
    ensures forall i :: 0 <= i < |done| ==>
      && Manifest(done, storage)[i].partNumber == done[i].partNumber
      && Manifest(done, storage)[i].etag == EtagOf(storage.partReply(done[i].partNumber))
  {
    if done != [] {
      ManifestAt(done[..|done| - 1], storage);
    }
  }

  /** A 20 MiB file in 8 MiB chunks: three parts of 8, 8 and 4 MiB, reported at 8, 16 and 20 MiB. */
  lemma TwentyMiBInEightMiBParts()
    ensures EffectiveChunkSize(Some(8 * MiB)) == 8 * MiB
    ensures Parts(20 * MiB, 8 * MiB)
      == [Slice(1, 0, 8 * MiB), Slice(2, 8 * MiB, 16 * MiB), Slice(3, 16 * MiB, 20 * MiB)]
    ensures ProgressOf(Parts(20 * MiB, 8 * MiB), 20 * MiB)
      == [Progress(8 * MiB, 20 * MiB), Progress(16 * MiB, 20 * MiB), Progress(20 * MiB, 20 * MiB)]
  {
    var size, chunk := 20 * MiB, 8 * MiB;
    var a, b, c := Slice(1, 0, 8 * MiB), Slice(2, 8 * MiB, 16 * MiB), Slice(3, 16 * MiB, 20 * MiB);
    assert Plan(size, chunk, 24 * MiB, 4) == [];
    assert Plan(size, chunk, 16 * MiB, 3) == [c];
    assert Plan(size, chunk, 8 * MiB, 2) == [b, c];
    assert Plan(size, chunk, 0, 1) == [a, b, c];
    assert [a, b, c][..2] == [a, b] && [a, b][..1] == [a] && [a][..0] == [];
    assert Covered([a]) == 8 * MiB;
    assert Covered([a, b]) == 16 * MiB;
    assert Covered([a, b, c]) == 20 * MiB;
    assert ProgressOf([a], size) == [Progress(8 * MiB, size)];
    assert ProgressOf([a, b], size) == [Progress(8 * MiB, size), Progress(16 * MiB, size)];
  }
}
