/**
 * The `process-video` edge function (supabase/functions/process-video/index.ts): it marks a
 * submitted video `verifying`, validates the stored file, marks it `transcoding`, optionally hands
 * it to a transcoding webhook, and marks it `pending` for moderation; every refusal marks it `failed`.
 */
module ProcessVideo {
  import opened Wrappers
  import opened Text
  import opened JsValue
  import opened VideoStatus

  const KiB: int := 1024
  /** The size limit when VIDEO_MAX_FILE_SIZE is unset or not a number. */
  const DefaultMaxFileSize: int := 300 * 1024 * 1024
  /** Files below this size are taken to be corrupted. */
  const MinFileSize: int := 256 * 1024
  const AllowedMimeTypes: seq<string> := ["video/mp4", "video/x-m4v", "video/quicktime"]
  const AllowedExtensions: seq<string> := ["mp4", "m4v", "mov"]

  /**
   * The request body's fields as the handler reads them. Text fields hold "" when absent (both are
   * falsy); `size` is present only when the body holds a number there.
   */
  datatype ProcessPayload = ProcessPayload(
    videoId: string,
    bucket: string,
    path: string,
    size: Option<int>,
    mimeType: string,
    transcodeWebhook: string)

  /** The parsed body: not JSON at all, the JSON literal `null`, or a value whose fields are read. */
  datatype Body = Malformed | JsonNull | Json(payload: ProcessPayload)

  datatype Request = Request(httpMethod: string, body: Body)

  /**
   * The function's environment. `maxFileSize` is VIDEO_MAX_FILE_SIZE when it is set to a finite
   * number, and absent otherwise; text variables hold "" when unset.
   */
  datatype Env = Env(
    supabaseUrl: string,
    serviceRoleKey: string,
    videoBucket: string,
    maxFileSize: Option<int>,
    transcodeWebhookUrl: string)

  datatype WebhookReply = WebhookOk | WebhookNotOk | WebhookUnreachable

  /**
   * What the services answer: whether the n-th status update throws, the storage listing (absent
   * when the listing fails), and the webhook's answer.
   */
  datatype Services = Services(writeThrows: nat -> bool, listing: Option<seq<Value>>, webhook: WebhookReply)

  /** One storage listing: bucket, folder prefix, and the file name searched for. */
  datatype Lookup = Lookup(bucket: string, prefix: string, search: string)

  /** The JSON posted to the webhook. */
  datatype WebhookCall = WebhookCall(url: string, videoId: string, bucket: string, path: string, size: int, mimeType: string)

  /**
   * The HTTP status returned, the status updates attempted on the video (in order), the listing
   * made, and the webhook call made.
   */
  datatype Reply = Reply(code: int, writes: seq<Status>, lookups: seq<Lookup>, webhookCalls: seq<WebhookCall>)

  // ---------------------------------------------------------------------------
  // fetchFileMetadata

  /** The listing a path asks for: the folder before the last `/` and the name after it. */
  function LookupFor(bucket: string, path: string): Lookup {
    Lookup(bucket, BeforeLast(path, '/'), AfterLast(path, '/'))
  }

  predicate NamedExactly(item: Value, name: string) {
    Field(item, "name") == Some(Str(name))
  }

  /** `find`: the first listed item whose name is exactly `name`. */
  function FindByName(items: seq<Value>, name: string): (r: Option<Value>)
    ensures r.Some? ==> r.value in items && NamedExactly(r.value, name)
    ensures r.None? <==> forall i :: 0 <= i < |items| ==> !NamedExactly(items[i], name)
  {
    if items == [] then None
    else if NamedExactly(items[0], name) then Some(items[0])
    else
      var r := FindByName(items[1..], name);
      assert forall i :: 1 <= i < |items| ==> items[i] == items[1..][i - 1];
      r
  }

  /** The first match is the first: no item before it has the name. */
  lemma {:induction false} FindByNameFirst(items: seq<Value>, name: string)
    requires FindByName(items, name).Some?
    ensures exists k :: (0 <= k < |items| && items[k] == FindByName(items, name).value
      && (forall i :: 0 <= i < k ==> !NamedExactly(items[i], name)))
  {
    if !NamedExactly(items[0], name) {
      var tail := items[1..];
      FindByNameFirst(tail, name);
      var k :| 0 <= k < |tail| && tail[k] == FindByName(tail, name).value
        && forall i :: 0 <= i < k ==> !NamedExactly(tail[i], name);
      assert FindByName(items, name) == FindByName(tail, name);
      assert items[k + 1] == tail[k];
      forall i | 0 <= i < k + 1
        ensures !NamedExactly(items[i], name)
      {
        if i > 0 {
          assert items[i] == tail[i - 1];
        }
      }
    } else {
      assert items[0] == FindByName(items, name).value;
    }
  }

  /**
   * Whether `find` throws: reading `item.name` of a `null` item fails, and `find` reaches such an
   * item when no item before it has the name.
   */
  function FindThrows(items: seq<Value>, name: string): (r: bool)
    ensures r ==> Null in items
  {
    if items == [] then false
    else if items[0] == Null then true
    else if NamedExactly(items[0], name) then false
    else FindThrows(items[1..], name)
  }

  /** `find` throws exactly when a `null` item comes before every item with the name. */
  lemma {:induction false} FindThrowsExactly(items: seq<Value>, name: string)
    ensures FindThrows(items, name) <==>
      exists k :: 0 <= k < |items| && items[k] == Null && (forall i :: 0 <= i < k ==> !NamedExactly(items[i], name))
  {
    if items != [] && items[0] != Null && !NamedExactly(items[0], name) {
      FindThrowsExactly(items[1..], name);
      if FindThrows(items, name) {
        var k :| 0 <= k < |items[1..]| && items[1..][k] == Null
          && (forall i :: 0 <= i < k ==> !NamedExactly(items[1..][i], name));
        assert items[k + 1] == Null;
        assert forall i :: 1 <= i < k + 1 ==> items[i] == items[1..][i - 1];
      } else {
        forall k | 0 <= k < |items| && items[k] == Null
          ensures exists i :: 0 <= i < k && NamedExactly(items[i], name)
        {
          assert k >= 1 && items[1..][k - 1] == Null;
          var j :| 0 <= j < k - 1 && NamedExactly(items[1..][j], name);
          assert NamedExactly(items[j + 1], name);
        }
      }
    } else if items != [] && items[0] != Null {
      assert NamedExactly(items[0], name);
    } else if items != [] {
      assert items[0] == Null;
    }
  }

  /** `a ?? b`: `b` when `a` is undefined or null. */
  function Coalesce(a: Option<Value>, b: Option<Value>): (r: Option<Value>)
    ensures a.Some? && a.value != Null ==> r == a
    ensures (a.None? || a == Some(Null)) ==> r == b
  {
    if a.Some? && a.value != Null then a else b
  }

  /** `metadata?.metadata?.size ?? metadata?.metadata?.ContentLength ?? metadata?.size`. */
  function MetaSize(item: Option<Value>): Option<Value> {
    Coalesce(FieldOf(FieldOf(item, "metadata"), "size"),
      Coalesce(FieldOf(FieldOf(item, "metadata"), "ContentLength"), FieldOf(item, "size")))
  }

  /**
   * The size the listing gives: a non-zero number found under one of the three keys, or 0 for
   * none; a failed listing and a `find` that throws are caught and give none.
   */
  function ListedSize(listing: Option<seq<Value>>, path: string): int {
    if listing.None? || FindThrows(listing.value, AfterLast(path, '/')) then 0
    else match MetaSize(FindByName(listing.value, AfterLast(path, '/')))
      case Some(Num(n)) => n
      case _ => 0
  }

  /** The name looked up for `videos/x.mp4` is `x.mp4`. */
  lemma FileNameOfSamplePath()
    ensures AfterLast("videos/x.mp4", '/') == "x.mp4"
  {
    var path := "videos/x.mp4";
    assert path[6] == '/';
    var k := LastIndexOf(path, '/');
    assert k.Some? && path[k.value] == '/';
    assert forall j :: 0 <= j < |path| && j != 6 ==> path[j] != '/';
    assert path[7..] == "x.mp4";
  }

  /**
   * A `null` listed before the file makes the lookup throw, so its listed size is lost; a `null`
   * after the file is never reached.
   */
  lemma NullBeforeMatchHidesSize()
    ensures var item := Obj(map["name" := Str("x.mp4"), "size" := Num(1000000)]);
      && ListedSize(Some([Null, item]), "videos/x.mp4") == 0
      && ListedSize(Some([item, Null]), "videos/x.mp4") == 1000000
  {
    var item := Obj(map["name" := Str("x.mp4"), "size" := Num(1000000)]);
    FileNameOfSamplePath();
    assert FindThrows([Null, item], "x.mp4");
    assert Field(item, "name") == Some(Str("x.mp4"));
    assert !FindThrows([item, Null], "x.mp4");
    assert FindByName([item, Null], "x.mp4") == Some(item);
    assert FieldOf(Some(item), "metadata") == None;
    assert MetaSize(Some(item)) == Some(Num(1000000));
  }

  /**
   * The size the checks use, 0 standing for "none": the body's `size` when it is a non-zero
   * number, otherwise what the listing gives.
   */
  function FileSize(p: ProcessPayload, listing: Option<seq<Value>>): (n: int)
    ensures p.size.Some? && p.size.value != 0 ==> n == p.size.value
    ensures (p.size.None? || p.size == Some(0)) ==> n == ListedSize(listing, p.path)
  {
    if p.size.Some? && p.size.value != 0 then p.size.value else ListedSize(listing, p.path)
  }

  // ---------------------------------------------------------------------------
  // The checks

  datatype Refusal = TooLarge | NoSize | MimeNotAllowed | ExtensionNotAllowed | TooSmall

  /** `path.split('.').pop().toLowerCase()`: the whole path when it has no dot. */
  function Extension(path: string): string {
    LowerAscii(AfterLast(path, '.'))
  }

  /** The limit in force: VIDEO_MAX_FILE_SIZE if set to a number, else 300 MiB; 0 turns the check off. */
  function MaxFileSize(env: Env): int {
    env.maxFileSize.GetOr(DefaultMaxFileSize)
  }

  /**
   * The five checks, in the handler's order: above the limit (when both are non-zero), no
   * positive size, MIME type not allowed, a non-empty extension not allowed, below 256 KiB.
   */
  function Refuse(size: int, maxSize: int, mimeType: string, path: string): Option<Refusal>
  {
    if size != 0 && maxSize != 0 && size > maxSize then Some(TooLarge)
    else if size <= 0 then Some(NoSize)
    else if mimeType !in AllowedMimeTypes then Some(MimeNotAllowed)
    else if Extension(path) != "" && Extension(path) !in AllowedExtensions then Some(ExtensionNotAllowed)
    else if size < MinFileSize then Some(TooSmall)
    else None
  }

  /** A file passes exactly when it clears all five checks; the first failing one is reported. */
  lemma RefuseExactly(size: int, maxSize: int, mimeType: string, path: string)
    ensures Refuse(size, maxSize, mimeType, path) == Some(TooLarge) <==> size != 0 && maxSize != 0 && size > maxSize
    ensures Refuse(size, maxSize, mimeType, path).None? <==>
      && (maxSize != 0 && size != 0 ==> size <= maxSize)
      && size > 0
      && mimeType in AllowedMimeTypes
      && (Extension(path) == "" || Extension(path) in AllowedExtensions)
      && size >= MinFileSize
    ensures Refuse(size, maxSize, mimeType, path) == Some(NoSize) ==> size <= 0
    ensures Refuse(size, maxSize, mimeType, path) == Some(MimeNotAllowed) ==> size > 0 && mimeType !in AllowedMimeTypes
    ensures Refuse(size, maxSize, mimeType, path) == Some(TooSmall) ==> 0 < size < MinFileSize
  {
  }

  /** The boundaries: exactly the limit and exactly 256 KiB both pass; one byte beyond either is refused. */
  lemma RefuseBoundaries(maxSize: int, mimeType: string, path: string)
    requires maxSize >= MinFileSize && mimeType in AllowedMimeTypes && Extension(path) in AllowedExtensions
    ensures Refuse(maxSize, maxSize, mimeType, path).None?
    ensures Refuse(maxSize + 1, maxSize, mimeType, path) == Some(TooLarge)
    ensures Refuse(MinFileSize, maxSize, mimeType, path).None?
    ensures Refuse(MinFileSize - 1, maxSize, mimeType, path) == Some(TooSmall)
  {
  }

  // ---------------------------------------------------------------------------
  // The handler

  /** Every status update of the body is guarded: a throw goes to the handler's catch. */
  function Crash(writes: seq<Status>, lookups: seq<Lookup>, calls: seq<WebhookCall>): Reply {
    Reply(500, writes + [Failed], lookups, calls)
  }

  /** The bucket: the body's, else VIDEO_BUCKET, else "videos". */
  function BucketOf(p: ProcessPayload, env: Env): string {
    if p.bucket != "" then p.bucket else if env.videoBucket != "" then env.videoBucket else "videos"
  }

  /** The MIME type: the body's, else "video/mp4". */
  function MimeTypeOf(p: ProcessPayload): string {
    if p.mimeType != "" then p.mimeType else "video/mp4"
  }

  /** The webhook: the body's, else TRANSCODE_WEBHOOK_URL; "" for none. */
  function WebhookOf(p: ProcessPayload, env: Env): string {
    if p.transcodeWebhook != "" then p.transcodeWebhook else env.transcodeWebhookUrl
  }

  /** The listing made when the body gives no usable size. */
  function LookupsOf(p: ProcessPayload, env: Env): seq<Lookup> {
    if p.size.Some? && p.size.value != 0 then [] else [LookupFor(BucketOf(p, env), p.path)]
  }

  /**
   * The main body after `verifying` is written, given the check result: `failed` on a refusal;
   * otherwise `transcoding`, the webhook when one is configured, then `pending` unless it refuses.
   */
  function AfterVerifying(refusal: Option<Refusal>, call: WebhookCall, lookups: seq<Lookup>, sv: Services): Reply {
    if refusal.Some? then
      if sv.writeThrows(1) then Crash([Verifying, Failed], lookups, []) else Reply(400, [Verifying, Failed], lookups, [])
    else if sv.writeThrows(1) then Crash([Verifying, Transcoding], lookups, [])
    else
      var calls := if call.url == "" then [] else [call];
      if call.url != "" && sv.webhook == WebhookUnreachable then Crash([Verifying, Transcoding], lookups, calls)
      else if call.url != "" && sv.webhook == WebhookNotOk then
        if sv.writeThrows(2) then Crash([Verifying, Transcoding, Failed], lookups, calls)
        else Reply(502, [Verifying, Transcoding, Failed], lookups, calls)
      else if sv.writeThrows(2) then Crash([Verifying, Transcoding, Pending], lookups, calls)
      else Reply(200, [Verifying, Transcoding, Pending], lookups, calls)
  }

  /** The reference reply of the handler to a request. */
  function ExpectedReply(req: Request, env: Env, sv: Services): Reply {
    if req.httpMethod != "POST" then Reply(405, [], [], [])
    else if env.supabaseUrl == "" || env.serviceRoleKey == "" then Reply(500, [], [], [])
    else match req.body
      case Malformed => Reply(400, [], [], [])
      case JsonNull => Reply(500, [], [], [])
      case Json(p) =>
        if p.videoId == "" || p.path == "" then Reply(400, [], [], [])
        else if sv.writeThrows(0) then Crash([Verifying], [], [])
        else
          var size := FileSize(p, sv.listing);
          AfterVerifying(
            Refuse(size, MaxFileSize(env), MimeTypeOf(p), p.path),
            WebhookCall(WebhookOf(p, env), p.videoId, BucketOf(p, env), p.path, size, MimeTypeOf(p)),
            LookupsOf(p, env), sv)
  }

  /**
   * The handler. Status updates are appended to `writes` as they are attempted; a throwing update
   * or webhook call ends the main body, after which `failed` is written once more (best effort) and
   * 500 is returned.
   */
  method Handle(req: Request, env: Env, sv: Services) returns (reply: Reply)
    ensures reply == ExpectedReply(req, env, sv)
  {
    if req.httpMethod != "POST" {
      return Reply(405, [], [], []);
    }
    if env.supabaseUrl == "" || env.serviceRoleKey == "" {
      return Reply(500, [], [], []);
    }
    if req.body.Malformed? {
      return Reply(400, [], [], []);
    }
    if req.body.JsonNull? {
      // reading a field of `null` throws outside the handler's own try
      return Reply(500, [], [], []);
    }
    var p := req.body.payload;
    if p.videoId == "" || p.path == "" {
      return Reply(400, [], [], []);
    }
    var writes: seq<Status> := [Verifying];
    if sv.writeThrows(0) {
      return Crash(writes, [], []);
    }
    var fileSize := if p.size.Some? then p.size.value else 0;
    var lookups: seq<Lookup> := [];
    if fileSize == 0 {
      lookups := lookups + [LookupFor(BucketOf(p, env), p.path)];
      fileSize := ListedSize(sv.listing, p.path);
    }
    assert fileSize == FileSize(p, sv.listing) && lookups == LookupsOf(p, env);
    var refusal := Refuse(fileSize, MaxFileSize(env), MimeTypeOf(p), p.path);
    var call := WebhookCall(WebhookOf(p, env), p.videoId, BucketOf(p, env), p.path, fileSize, MimeTypeOf(p));
    reply := HandOver(writes, refusal, call, lookups, sv);
  }

  /** The main body once `verifying` is written: the refusal or `transcoding`, the webhook, `pending`. */
  method HandOver(writes0: seq<Status>, refusal: Option<Refusal>, call: WebhookCall, lookups: seq<Lookup>, sv: Services)
    returns (reply: Reply)
    requires writes0 == [Verifying]
    ensures reply == AfterVerifying(refusal, call, lookups, sv)
  {
    var writes := writes0;
    var calls: seq<WebhookCall> := [];
    if refusal.Some? {
      writes := writes + [Failed];
      if sv.writeThrows(1) {
        return Crash(writes, lookups, calls);
      }
      return Reply(400, writes, lookups, calls);
    }

    writes := writes + [Transcoding];
    if sv.writeThrows(1) {
      return Crash(writes, lookups, calls);
    }

    if call.url != "" {
      calls := calls + [call];
      if sv.webhook == WebhookUnreachable {
        return Crash(writes, lookups, calls);
      }
      if sv.webhook == WebhookNotOk {
        writes := writes + [Failed];
        if sv.writeThrows(2) {
          return Crash(writes, lookups, calls);
        }
        return Reply(502, writes, lookups, calls);
      }
    }

    writes := writes + [Pending];
    if sv.writeThrows(2) {
      return Crash(writes, lookups, calls);
    }
    return Reply(200, writes, lookups, calls);
  }

  /** The replies of the main body: three shapes without a throw, a final `failed` with one. */
  lemma AfterVerifyingShapes(refusal: Option<Refusal>, call: WebhookCall, lookups: seq<Lookup>, sv: Services)
    ensures var r := AfterVerifying(refusal, call, lookups, sv);
      && |r.writes| >= 2 && r.writes[0] == Verifying
      && r.code in {200, 400, 500, 502}
      && (r.code == 500 ==> r.writes[|r.writes| - 1] == Failed)
      && (r.code != 500 ==>
        && (r.writes == [Verifying, Failed] || r.writes == [Verifying, Transcoding, Failed]
            || r.writes == [Verifying, Transcoding, Pending])
        && (r.code == 200 <==> r.writes[|r.writes| - 1] == Pending))
      && (refusal.Some? ==> Transcoding !in r.writes && r.webhookCalls == [])
      && (r.webhookCalls != [] ==> refusal.None? && call.url != "" && r.webhookCalls == [call] && r.writes[1] == Transcoding)
      && (call.url == "" ==> r.webhookCalls == [])
      && (refusal.None? && call.url == "" && !sv.writeThrows(1) && !sv.writeThrows(2) ==>
            r == Reply(200, [Verifying, Transcoding, Pending], lookups, []))
      && (refusal.None? && call.url != "" && sv.webhook == WebhookNotOk && !sv.writeThrows(1) ==>
            r.code in {500, 502} && Pending !in r.writes)
  {
  }

  /** A request refused before the main body (wrong method, no configuration, bad body, no id or path) updates nothing. */
  lemma EarlyRepliesWriteNothing(req: Request, env: Env, sv: Services)
    ensures req.httpMethod != "POST" ==> ExpectedReply(req, env, sv) == Reply(405, [], [], [])
    ensures req.httpMethod == "POST" && (env.supabaseUrl == "" || env.serviceRoleKey == "") ==>
      ExpectedReply(req, env, sv) == Reply(500, [], [], [])
    ensures req.httpMethod == "POST" && req.body.Json? && (req.body.payload.videoId == "" || req.body.payload.path == "") ==>
      ExpectedReply(req, env, sv).code in {400, 500} && ExpectedReply(req, env, sv).writes == []
    ensures ExpectedReply(req, env, sv).writes != [] <==>
      && req.httpMethod == "POST" && env.supabaseUrl != "" && env.serviceRoleKey != ""
      && req.body.Json? && req.body.payload.videoId != "" && req.body.payload.path != ""
  {
    if && req.httpMethod == "POST" && env.supabaseUrl != "" && env.serviceRoleKey != ""
       && req.body.Json? && req.body.payload.videoId != "" && req.body.payload.path != ""
    {
      MainBodyShapes(req, env, sv);
    }
  }

  /** The main body's guarantees, lifted to the whole handler. */
  lemma MainBodyShapes(req: Request, env: Env, sv: Services)
    requires req.httpMethod == "POST" && env.supabaseUrl != "" && env.serviceRoleKey != ""
    requires req.body.Json? && req.body.payload.videoId != "" && req.body.payload.path != ""
    ensures var r := ExpectedReply(req, env, sv);
      && |r.writes| >= 1 && r.writes[0] == Verifying
      && r.code in {200, 400, 500, 502}
      && (r.code == 500 ==> r.writes[|r.writes| - 1] == Failed)
      && (r.code != 500 ==>
        && (r.writes == [Verifying, Failed] || r.writes == [Verifying, Transcoding, Failed]
            || r.writes == [Verifying, Transcoding, Pending])
        && (r.code == 200 <==> r.writes[|r.writes| - 1] == Pending))
  {
    var p := req.body.payload;
    if !sv.writeThrows(0) {
      var size := FileSize(p, sv.listing);
      AfterVerifyingShapes(
        Refuse(size, MaxFileSize(env), MimeTypeOf(p), p.path),
        WebhookCall(WebhookOf(p, env), p.videoId, BucketOf(p, env), p.path, size, MimeTypeOf(p)),
        LookupsOf(p, env), sv);
    }
  }

  /**
   * Whatever happens, the first status written is `verifying`; unless something throws (500) the
   * updates are exactly one of three runs, each a legal run of the status machine, and the reply is
   * 200 exactly when the last update is `pending`; a throw always ends with `failed`.
   */
  lemma WriteShapes(req: Request, env: Env, sv: Services)
    ensures var r := ExpectedReply(req, env, sv);
      r.writes != [] ==>
        && r.writes[0] == Verifying
        && (r.code == 500 ==> r.writes[|r.writes| - 1] == Failed)
        && (r.code != 500 ==>
          && (r.writes == [Verifying, Failed] || r.writes == [Verifying, Transcoding, Failed]
              || r.writes == [Verifying, Transcoding, Pending])
          && IsRun(r.writes)
          && (r.code == 200 <==> r.writes[|r.writes| - 1] == Pending))
  {
    EarlyRepliesWriteNothing(req, env, sv);
    var r := ExpectedReply(req, env, sv);
    if r.writes != [] {
      MainBodyShapes(req, env, sv);
    }
  }

  /**
   * The checks come strictly before transcoding: `transcoding` is written, and the webhook called,
   * only for a file that passes all five checks.
   */
  lemma ChecksBeforeTranscoding(req: Request, env: Env, sv: Services)
    requires req.httpMethod == "POST" && env.supabaseUrl != "" && env.serviceRoleKey != ""
    requires req.body.Json? && req.body.payload.videoId != "" && req.body.payload.path != ""
    ensures var p := req.body.payload;
      var r := ExpectedReply(req, env, sv);
      (Transcoding in r.writes || r.webhookCalls != []) ==>
        !sv.writeThrows(0) && Refuse(FileSize(p, sv.listing), MaxFileSize(env), MimeTypeOf(p), p.path).None?
    ensures var r := ExpectedReply(req, env, sv);
      r.webhookCalls != [] ==> r.webhookCalls[0].url == WebhookOf(req.body.payload, env) != ""
  {
    var p := req.body.payload;
    if !sv.writeThrows(0) {
      var size := FileSize(p, sv.listing);
      AfterVerifyingShapes(
        Refuse(size, MaxFileSize(env), MimeTypeOf(p), p.path),
        WebhookCall(WebhookOf(p, env), p.videoId, BucketOf(p, env), p.path, size, MimeTypeOf(p)),
        LookupsOf(p, env), sv);
    }
  }
}
