/**
 * The moderation page (admin.js): who counts as a moderator, what a decision writes, the
 * top-five lists of the insights panel, and which parts of the page a session may see.
 */
module Admin {
  import opened Wrappers
  import opened JsValue
  import opened VideoStatus
  import opened Subscription
  import opened Feed
  import opened Text

  // ---------------------------------------------------------------- moderators

  /** `user?.[key]` one level down, for a user that may be absent. */
  function MetaField(user: Option<Value>, meta: string, key: string): Option<Value> {
    FieldOf(FieldOf(user, meta), key)
  }

  /**
   * `isAdminUser`: a present, truthy user whose `app_metadata.roles` array holds `"admin"`, or whose
   * `app_metadata.role` or `user_metadata.role` is the string `"admin"`, or whose
   * `user_metadata.is_admin` is `true`.
   */
  predicate IsAdminUser(user: Option<Value>) {
    && user.Some? && Truthy(user.value)
    && (|| (MetaField(user, "app_metadata", "roles").Some? && MetaField(user, "app_metadata", "roles").value.Arr?
            && Str("admin") in MetaField(user, "app_metadata", "roles").value.items)
        || MetaField(user, "app_metadata", "role") == Some(Str("admin"))
        || MetaField(user, "user_metadata", "is_admin") == Some(Bool(true))
        || MetaField(user, "user_metadata", "role") == Some(Str("admin")))
  }

  /** The user object's `meta` object, when there is one. */
  function Meta(u: map<string, Value>, meta: string): map<string, Value> {
    if meta in u && u[meta].Obj? then u[meta].fields else map[]
  }

  /**
   * The four grants, read directly off the user object: only an object can be a moderator, and only
   * through one of the four exact values (a truthy `is_admin` such as `1` or `"true"` is not enough,
   * nor is a role such as `"Admin"`).
   */
  lemma IsAdminUserExactly(user: Option<Value>)
    ensures IsAdminUser(user) <==>
      && user.Some? && user.value.Obj?
      && var app, usr := Meta(user.value.fields, "app_metadata"), Meta(user.value.fields, "user_metadata");
        || ("roles" in app && app["roles"].Arr? && Str("admin") in app["roles"].items)
        || ("role" in app && app["role"] == Str("admin"))
        || ("is_admin" in usr && usr["is_admin"] == Bool(true))
        || ("role" in usr && usr["role"] == Str("admin"))
  {
  }

  /** Neither a missing user nor `null` is a moderator, and `is_admin` must be exactly `true`. */
  lemma NoUserIsNoModerator(flag: Value)
    ensures !IsAdminUser(None) && !IsAdminUser(Some(Null))
    ensures flag != Bool(true) ==> !IsAdminUser(Some(Obj(map["user_metadata" := Obj(map["is_admin" := flag])])))
    ensures IsAdminUser(Some(Obj(map["user_metadata" := Obj(map["is_admin" := Bool(true)])])))
  {
    var u := Some(Obj(map["user_metadata" := Obj(map["is_admin" := flag])]));
    assert MetaField(u, "app_metadata", "roles") == None;
    assert MetaField(u, "user_metadata", "role") == None;
  }

  // ---------------------------------------------------------------- decisions

  /** The status a moderator's button writes: `approve` approves, any other action rejects. */
  function DecisionStatus(action: string): (s: Status)
    ensures s == Approved <==> action == "approve"
    ensures s == Rejected <==> action != "approve"
  {
    if action == "approve" then Approved else Rejected
  }

  /**
   * A decision is final: it is a terminal status that a pending video may move to, so an uploader
   * still following the video stops following on its push.
   */
  lemma DecisionEndsFollowing(action: string)
    ensures IsTerminal(DecisionStatus(action))
    ensures CanFollow(Pending, DecisionStatus(action))
    ensures EndsFollowing(Key(DecisionStatus(action)))
  {
  }

  /** The update `handleAction` sends to the `videos` table. */
  datatype StatusUpdate = StatusUpdate(id: string, status: Status)

  /** The CSS tone `setStatus` gives a message: muted for an empty message or `info`; none for an unknown type. */
  function MessageTone(message: string, typeName: string): (t: Option<Tone>)
    ensures message == "" ==> t == Some(Info)
    ensures message != "" && typeName == "info" ==> t == Some(Info)
    ensures message != "" && typeName == "error" ==> t == Some(Error)
    ensures message != "" && typeName == "success" ==> t == Some(Success)
    ensures t == None <==> message != "" && typeName !in {"info", "error", "success"}
  {
    if message == "" || typeName == "info" then Some(Info)
    else if typeName == "error" then Some(Error)
    else if typeName == "success" then Some(Success)
    else None
  }

  /** `Boolean(session)`: a session is present and truthy. */
  predicate SignedIn(session: Option<Value>) {
    session.Some? && Truthy(session.value)
  }

  /** Only a signed-in session can carry a moderator. */
  lemma ModeratorIsSignedIn(session: Option<Value>)
    ensures IsAdminUser(FieldOf(session, "user")) ==> SignedIn(session)
  {
  }

  /** `session?.user?.email || ''` for a string address. */
  function EmailOf(session: Option<Value>): string {
    match FieldOf(FieldOf(session, "user"), "email")
    case Some(Str(e)) => e
    case _ => ""
  }

  // ---------------------------------------------------------------- the page

  /** The status line for a signed-out visitor and for a signed-in user who is not a moderator. */
  const SignInPrompt: string := "Jelentkezz be a moderációhoz."
  const NotModerator: string := "Nincs admin jogosultságod ehhez a felülethez."
  /** The status line while a moderator's decision is written, and after it. */
  const NoPermission: string := "Nincs admin jogosultság."
  const InProgress: string := "Művelet folyamatban…"
  const UpdateFailed: string := "Nem sikerült frissíteni a státuszt."
  const UpdateDone: string := "Státusz frissítve."
  /** The status line of `loadPending`, and of `handleSession` when the load fails. */
  const ConfigMissing: string := "Supabase konfiguráció hiányzik."
  const LoadingPending: string := "Videók betöltése…"
  const PendingLoadFailed: string := "Nem sikerült betölteni a függőben lévő videókat."
  const PendingLoadCrashed: string := "Hiba történt a függőben lévő videók betöltésekor."
  const NoPendingVideos: string := "Nincs jóváhagyásra váró videó."

  /** The line after a successful load of `n` pending videos. */
  function PendingMessage(n: nat): (r: string)
    ensures n == 0 <==> r == NoPendingVideos
  {
    if n == 0 then NoPendingVideos
    else
      var r := NatText(n) + " videó vár moderációra.";
      assert r[0] == NatText(n)[0] && '0' <= r[0] <= '9';
      assert NoPendingVideos[0] == 'N';
      r
  }

  /** What the pending-videos query gives: a rejected promise, an error result, or the rows (`null` data being none). */
  datatype PendingReply = QueryThrew | QueryFailed | Fetched(data: seq<Value>)

  /**
   * Whether `renderRows` can draw a row: reading its fields of `null` throws, `escapeHtml` throws on a
   * title that is neither absent (the default '') nor a string, and on a truthy category that is not
   * a string; `buildVideoUrl` throws on a truthy `file_path` that is not a string.
   */
  predicate RowRenders(video: Value) {
    && video != Null
    && (Field(video, "title").None? || Field(video, "title").value.Str?)
    && (Field(video, "category").None? || !Truthy(Field(video, "category").value) || Field(video, "category").value.Str?)
    && (Field(video, "file_path").None? || !Truthy(Field(video, "file_path").value) || Field(video, "file_path").value.Str?)
  }

  /** The rows `renderRows` has added to the table when it returns or throws: those before the first it cannot draw. */
  function RenderedPrefix(videos: seq<Value>): (r: seq<Value>)
    ensures r <= videos
    ensures |r| < |videos| ==> !RowRenders(videos[|r|])
  {
    if videos == [] || !RowRenders(videos[0]) then [] else [videos[0]] + RenderedPrefix(videos[1..])
  }

  /** Every row drawn can be drawn, so the whole list is drawn exactly when each of its rows can be. */
  lemma {:induction false} RenderedPrefixRenders(videos: seq<Value>)
    ensures forall i :: 0 <= i < |RenderedPrefix(videos)| ==> RowRenders(RenderedPrefix(videos)[i])
    ensures RenderedPrefix(videos) == videos <==> forall i :: 0 <= i < |videos| ==> RowRenders(videos[i])
  {
    if videos != [] && RowRenders(videos[0]) {
      RenderedPrefixRenders(videos[1..]);
      var r := RenderedPrefix(videos);
      assert r == [videos[0]] + RenderedPrefix(videos[1..]);
      assert forall i :: 1 <= i < |videos| ==> videos[i] == videos[1..][i - 1];
      assert forall i :: 1 <= i < |r| ==> r[i] == RenderedPrefix(videos[1..])[i - 1];
    }
  }

  /** Whether the part of `loadPending` after its query throws: a rejected query, or a row `renderRows` cannot draw. */
  predicate LoadThrows(reply: PendingReply) {
    reply.QueryThrew? || (reply.Fetched? && RenderedPrefix(reply.data) != reply.data)
  }

  class AdminPage {
    var session: Option<Value>
    var isAdmin: bool
    var panelShown: bool
    var authShown: bool
    /** The rows of the pending table. */
    var rows: seq<Value>
    var statusText: string
    var statusTone: Option<Tone>
    var userEmail: string
    var emailShown: bool
    var signOutShown: bool
    /** `state.loading`: a pending-videos query is in flight. */
    var loading: bool

    /**
     * The moderator flag always belongs to the current session's user, and the panel and the
     * sign-in section are never shown together; the panel only for a moderator.
     */
    predicate Valid()
      reads this
    {
      && isAdmin == IsAdminUser(FieldOf(session, "user"))
      && panelShown == !authShown
      && (panelShown ==> isAdmin)
    }

    /** Everything but the table, the status line and the load flag is as it was. */
    twostate predicate SameUserDisplay()
      reads this
    {
      && session == old(session) && isAdmin == old(isAdmin) && panelShown == old(panelShown)
      && authShown == old(authShown)
      && userEmail == old(userEmail) && emailShown == old(emailShown) && signOutShown == old(signOutShown)
    }

    constructor ()
      ensures Valid()
      ensures session == None && !isAdmin && !panelShown && authShown && rows == [] && !loading
    {
      session, isAdmin, panelShown, authShown, rows := None, false, false, true, [];
      statusText, statusTone, userEmail, emailShown, signOutShown := "", Some(Info), "", false, false;
      loading := false;
    }

    /** `setStatus`. */
    method SetStatus(message: string, typeName: string)
      modifies this
      ensures statusText == message && statusTone == MessageTone(message, typeName)
      ensures SameUserDisplay() && rows == old(rows) && loading == old(loading)
    {
      statusText, statusTone := message, MessageTone(message, typeName);
    }

    /**
     * `handleSession`: records the session and whether its user is a moderator. A moderator sees the
     * panel, `loadPending` runs up to its query (the rest is `SettleSessionLoad`) and `loadInsights`
     * is started; anyone else sees the sign-in section, an empty table and a message saying why.
     */
    method HandleSession(newSession: Option<Value>, clientConfigured: bool) returns (pendingQueried: bool, insightsStarted: bool)
      modifies this
      ensures Valid()
      ensures session == newSession && isAdmin == IsAdminUser(FieldOf(newSession, "user"))
      ensures userEmail == EmailOf(newSession) && emailShown == (userEmail != "")
      ensures signOutShown == SignedIn(newSession)
      ensures panelShown == isAdmin && insightsStarted == isAdmin
      ensures pendingQueried <==> isAdmin && clientConfigured && !old(loading)
      ensures !panelShown ==> rows == [] && statusText == (if SignedIn(newSession) then NotModerator else SignInPrompt)
      ensures !panelShown ==> statusTone == Some(if SignedIn(newSession) then Error else Info) && loading == old(loading)
      ensures panelShown && !clientConfigured ==>
        rows == [] && statusText == ConfigMissing && statusTone == Some(Error) && loading == old(loading)
      ensures pendingQueried ==> rows == old(rows) && statusText == LoadingPending && statusTone == Some(Info) && loading
      ensures panelShown && clientConfigured && old(loading) ==>
        rows == old(rows) && statusText == old(statusText) && statusTone == old(statusTone) && loading
    {
      session := newSession;
      var user := FieldOf(newSession, "user");
      isAdmin := IsAdminUser(user);
      UpdateCurrentUser(newSession);
      if !SignedIn(newSession) {
        ShowSignIn(SignInPrompt, "info");
        return false, false;
      }
      if !isAdmin {
        ShowSignIn(NotModerator, "error");
        return false, false;
      }
      authShown, panelShown := false, true;
      pendingQueried := BeginLoadPending(clientConfigured);
      insightsStarted := true;
    }

    /**
     * `loadPending` up to its query: a non-moderator's table is emptied; without a configured client
     * the table is emptied and the line says so; a load already in flight is left alone; otherwise
     * the load is marked in flight and the line says the videos are loading.
     */
    method BeginLoadPending(clientConfigured: bool) returns (querying: bool)
      modifies this
      ensures SameUserDisplay()
      ensures querying <==> isAdmin && clientConfigured && !old(loading)
      ensures !isAdmin ==> rows == [] && statusText == old(statusText) && statusTone == old(statusTone) && loading == old(loading)
      ensures isAdmin && !clientConfigured ==>
        rows == [] && statusText == ConfigMissing && statusTone == Some(Error) && loading == old(loading)
      ensures isAdmin && clientConfigured && old(loading) ==>
        rows == old(rows) && statusText == old(statusText) && statusTone == old(statusTone) && loading
      ensures querying ==> rows == old(rows) && statusText == LoadingPending && statusTone == Some(Info) && loading
    {
      if !isAdmin {
        rows := [];
        return false;
      }
      if !clientConfigured {
        SetStatus(ConfigMissing, "error");
        rows := [];
        return false;
      }
      if loading {
        return false;
      }
      loading := true;
      SetStatus(LoadingPending, "info");
      querying := true;
    }

    /**
     * `loadPending` after its query, whose `finally` always clears the in-flight mark: an error
     * result empties the table and says so; rows are drawn until one cannot be, and the count is
     * shown only when all were drawn; a rejected query or a row that cannot be drawn throws
     * (`threw`) and leaves the line as it was.
     */
    method EndLoadPending(reply: PendingReply) returns (threw: bool)
      modifies this
      ensures SameUserDisplay() && !loading
      ensures threw == LoadThrows(reply)
      ensures reply.QueryThrew? ==> rows == old(rows)
      ensures reply.QueryFailed? ==> rows == [] && statusText == PendingLoadFailed && statusTone == Some(Error)
      ensures reply.Fetched? ==> rows == RenderedPrefix(reply.data)
      ensures reply.Fetched? && !threw ==> statusText == PendingMessage(|reply.data|) && statusTone == Some(Info)
      ensures threw ==> statusText == old(statusText) && statusTone == old(statusTone)
    {
      loading := false;
      match reply
      case QueryThrew =>
        threw := true;
      case QueryFailed =>
        SetStatus(PendingLoadFailed, "error");
        rows := [];
        threw := false;
      case Fetched(data) =>
        rows := RenderedPrefix(data);
        threw := rows != data;
        if !threw {
          SetStatus(PendingMessage(|data|), "info");
        }
    }

    /** The load `handleSession` started, settled: as `EndLoadPending`, and its `.catch` reports a throw on the line. */
    method SettleSessionLoad(reply: PendingReply)
      modifies this
      ensures SameUserDisplay() && !loading
      ensures reply.QueryThrew? ==> rows == old(rows)
      ensures reply.QueryFailed? ==> rows == [] && statusText == PendingLoadFailed && statusTone == Some(Error)
      ensures reply.Fetched? ==> rows == RenderedPrefix(reply.data)
      ensures !LoadThrows(reply) && reply.Fetched? ==> statusText == PendingMessage(|reply.data|) && statusTone == Some(Info)
      ensures LoadThrows(reply) ==> statusText == PendingLoadCrashed && statusTone == Some(Error)
    {
      var threw := EndLoadPending(reply);
      if threw {
        SetStatus(PendingLoadCrashed, "error");
      }
    }

    /** `updateCurrentUser`: shows the user's address when there is one, and the sign-out button for any session. */
    method UpdateCurrentUser(newSession: Option<Value>)
      modifies this
      ensures userEmail == EmailOf(newSession) && emailShown == (userEmail != "")
      ensures signOutShown == SignedIn(newSession)
      ensures session == old(session) && isAdmin == old(isAdmin) && panelShown == old(panelShown)
      ensures authShown == old(authShown) && rows == old(rows) && loading == old(loading)
      ensures statusText == old(statusText) && statusTone == old(statusTone)
    {
      userEmail := EmailOf(newSession);
      emailShown := userEmail != "";
      signOutShown := SignedIn(newSession);
    }

    /** Hides the panel, shows the sign-in section, clears the table and says why. */
    method ShowSignIn(message: string, typeName: string)
      modifies this
      ensures !panelShown && authShown && rows == [] && loading == old(loading)
      ensures statusText == message && statusTone == MessageTone(message, typeName)
      ensures session == old(session) && isAdmin == old(isAdmin)
      ensures userEmail == old(userEmail) && emailShown == old(emailShown) && signOutShown == old(signOutShown)
    {
      panelShown, authShown, rows := false, true, [];
      SetStatus(message, typeName);
    }

    /**
     * `handleAction`: only a moderator with a configured client sends an update, and it sets the
     * decision's status on that one video. After a successful update `loadPending` runs to its end
     * (`reply` is its query's answer) unless a load is already in flight, so the line ends on the
     * load's outcome; a rejected query or an undrawable row leaves it on the loading message.
     */
    method HandleAction(id: string, action: string, clientConfigured: bool, updateOk: bool, reply: PendingReply)
      returns (update: Option<StatusUpdate>, reload: bool)
      requires Valid()
      modifies this
      ensures Valid() && SameUserDisplay()
      ensures update.Some? <==> isAdmin && clientConfigured
      ensures update.Some? ==> IsAdminUser(FieldOf(session, "user"))
      ensures update.Some? ==> update.value == StatusUpdate(id, DecisionStatus(action))
      ensures reload <==> update.Some? && updateOk && !old(loading)
      ensures update.None? ==> statusText == NoPermission && statusTone == Some(Error)
      ensures update.Some? && !updateOk ==> statusText == UpdateFailed && statusTone == Some(Error)
      ensures !reload ==> rows == old(rows) && loading == old(loading)
      ensures update.Some? && updateOk && old(loading) ==> statusText == UpdateDone && statusTone == Some(Success)
      ensures reload ==> !loading
      ensures reload && reply.QueryThrew? ==> rows == old(rows)
      ensures reload && reply.QueryFailed? ==> rows == [] && statusText == PendingLoadFailed && statusTone == Some(Error)
      ensures reload && reply.Fetched? ==> rows == RenderedPrefix(reply.data)
      ensures reload && reply.Fetched? && !LoadThrows(reply) ==> statusText == PendingMessage(|reply.data|) && statusTone == Some(Info)
      ensures reload && LoadThrows(reply) ==> statusText == LoadingPending && statusTone == Some(Info)
    {
      if !isAdmin || !clientConfigured {
        SetStatus(NoPermission, "error");
        return None, false;
      }
      SetStatus(InProgress, "info");
      update := Some(StatusUpdate(id, DecisionStatus(action)));
      if !updateOk {
        SetStatus(UpdateFailed, "error");
        return update, false;
      }
      SetStatus(UpdateDone, "success");
      reload := BeginLoadPending(clientConfigured);
      if reload {
        var threw := EndLoadPending(reply);
      }
    }
  }

  // ---------------------------------------------------------------- insights

  /** One entry of a top list. */
  datatype RankItem = RankItem(id: Option<Value>, title: Option<Value>, count: int)

  /** `Array.isArray(data) ? data : []`. */
  function StatsRows(data: Option<Value>): seq<Value> {
    if data.Some? && data.value.Arr? then data.value.items else []
  }

  /**
   * The `map` step: each stats row becomes its id, title and the aggregate count of `relation`;
   * `None` when a row is `null`, on which the property access throws.
   */
  function Counted(rows: seq<Value>, relation: string): (r: Option<seq<RankItem>>)
    ensures r.Some? <==> Null !in rows
    ensures r.Some? ==> |r.value| == |rows|
    ensures r.Some? ==> forall i :: 0 <= i < |rows| ==>
      r.value[i] == RankItem(Field(rows[i], "id"), Field(rows[i], "title"), AggregateCount(Field(rows[i], relation).GetOr(Null)))
  {
    if rows == [] then Some([])
    else if rows[0] == Null then None
    else match Counted(rows[1..], relation)
      case None => assert rows == [rows[0]] + rows[1..]; None
      case Some(rest) =>
        assert forall i :: 1 <= i < |rows| ==> rows[i] == rows[1..][i - 1];
        Some([RankItem(Field(rows[0], "id"), Field(rows[0], "title"),
                       AggregateCount(Field(rows[0], relation).GetOr(Null)))] + rest)
  }

  /** The `filter` step: the items with a positive count, in order. */
  function Positive(items: seq<RankItem>): (r: seq<RankItem>)
    ensures |r| <= |items|
    ensures forall i :: 0 <= i < |r| ==> r[i].count > 0
  {
    if items == [] then []
    else if items[0].count > 0 then [items[0]] + Positive(items[1..])
    else Positive(items[1..])
  }

  /** Exactly the positive items survive the filter, each as often as it occurs. */
  lemma {:induction false} PositiveKeeps(items: seq<RankItem>)
    ensures forall x: RankItem :: multiset(Positive(items))[x] == if x.count > 0 then multiset(items)[x] else 0
  {
    if items != [] {
      PositiveKeeps(items[1..]);
      assert items == [items[0]] + items[1..];
      assert multiset(items) == multiset{items[0]} + multiset(items[1..]);
      if items[0].count > 0 {
        assert multiset(Positive(items)) == multiset{items[0]} + multiset(Positive(items[1..]));
      }
    }
  }

  /** Ordered by count, largest first. */
  predicate NonIncreasing(s: seq<RankItem>) {
    forall i, j :: 0 <= i < j < |s| ==> s[i].count >= s[j].count
  }

  /** Inserts before the first item whose count is not larger, so earlier items stay ahead of equal ones. */
  function Insert(x: RankItem, s: seq<RankItem>): (r: seq<RankItem>)
    ensures |r| == |s| + 1
  {
    if s == [] || x.count >= s[0].count then [x] + s else [s[0]] + Insert(x, s[1..])
  }

  /** The `sort` step, `(a, b) => b.count - a.count`, as a stable insertion sort. */
  function SortByCount(s: seq<RankItem>): (r: seq<RankItem>)
    ensures |r| == |s|
  {
    if s == [] then [] else Insert(s[0], SortByCount(s[1..]))
  }

  /** Inserting into an ordered list keeps it ordered. */
  lemma {:induction false} InsertOrdered(x: RankItem, s: seq<RankItem>)
    requires NonIncreasing(s)
    ensures NonIncreasing(Insert(x, s))
  {
    if s != [] && x.count < s[0].count {
      var t := Insert(x, s[1..]);
      InsertOrdered(x, s[1..]);
      assert Insert(x, s) == [s[0]] + t;
      assert t[0] == x || t[0] == s[1];
      assert forall k :: 0 <= k < |t| ==> t[k].count <= t[0].count;
    }
  }

  /** Inserting adds exactly the one item. */
  lemma {:induction false} InsertAdds(x: RankItem, s: seq<RankItem>)
    ensures multiset(Insert(x, s)) == multiset(s) + multiset{x}
  {
    if s != [] && x.count < s[0].count {
      InsertAdds(x, s[1..]);
      assert Insert(x, s) == [s[0]] + Insert(x, s[1..]);
      assert s == [s[0]] + s[1..];
    }
  }

  /** The sort orders the items by count, largest first, and is a permutation. */
  lemma {:induction false} SortOrdered(s: seq<RankItem>)
    ensures NonIncreasing(SortByCount(s))
    ensures multiset(SortByCount(s)) == multiset(s)
  {
    if s != [] {
      SortOrdered(s[1..]);
      InsertOrdered(s[0], SortByCount(s[1..]));
      InsertAdds(s[0], SortByCount(s[1..]));
      assert s == [s[0]] + s[1..];
    }
  }

  /** The `slice(0, 5)` step. */
  function TopFive(s: seq<RankItem>): (r: seq<RankItem>)
    ensures |r| <= 5
  {
    if |s| <= 5 then s else s[..5]
  }

  /** A top list from the stats: `None` when a null row made the `map` step throw. */
  function TopList(data: Option<Value>, relation: string): Option<seq<RankItem>> {
    match Counted(StatsRows(data), relation)
    case None => None
    case Some(items) => Some(TopFive(SortByCount(Positive(items))))
  }

  /** The first five of an ordered list are ordered, and nothing after them has a larger count. */
  lemma TopFiveOfOrdered(sorted: seq<RankItem>)
    requires NonIncreasing(sorted)
    ensures var r := TopFive(sorted);
      && NonIncreasing(r)
      && multiset(r) <= multiset(sorted)
      && (|r| < 5 ==> r == sorted)
      && (forall x: RankItem :: x in multiset(sorted) - multiset(r) ==> forall i :: 0 <= i < |r| ==> x.count <= r[i].count)
  {
    var r := TopFive(sorted);
    var rest := sorted[|r|..];
    assert sorted == r + rest;
    assert multiset(sorted) == multiset(r) + multiset(rest);
    forall x: RankItem | x in multiset(sorted) - multiset(r)
      ensures forall i :: 0 <= i < |r| ==> x.count <= r[i].count
    {
      assert x in multiset(rest);
      var m :| 0 <= m < |rest| && rest[m] == x;
      assert sorted[|r| + m] == x;
    }
  }

  /**
   * A top list holds at most five items, each with a positive count, largest count first, taken
   * from the rows' positive items; it is short only when there are fewer than five of those, and
   * every positive item left out has a count no larger than any item shown.
   */
  lemma TopListShape(data: Option<Value>, relation: string)
    requires TopList(data, relation).Some?
    ensures var items := Counted(StatsRows(data), relation).value;
      var r := TopList(data, relation).value;
      && |r| <= 5
      && (forall i :: 0 <= i < |r| ==> r[i].count > 0)
      && NonIncreasing(r)
      && multiset(r) <= multiset(Positive(items))
      && (|r| < 5 ==> multiset(r) == multiset(Positive(items)))
      && (forall x: RankItem :: x in multiset(Positive(items)) - multiset(r) ==> forall i :: 0 <= i < |r| ==> x.count <= r[i].count)
  {
    var items := Counted(StatsRows(data), relation).value;
    var p := Positive(items);
    var sorted := SortByCount(p);
    var r := TopFive(sorted);
    SortOrdered(p);
    TopFiveOfOrdered(sorted);
    assert TopList(data, relation).value == r;
    forall i | 0 <= i < |r|
      ensures r[i].count > 0
    {
      assert r[i] in multiset(p);
      PositiveKeeps(items);
    }
  }

  /** The titles of the two lists. */
  const LikeSingular: string := "like"
  const LikePlural: string := "like-ok"
  const FlagSingular: string := "jelentés"
  const FlagPlural: string := "jelentések"

  /** The label `renderTrendList` puts after a count: the singular form for exactly one, the plural otherwise. */
  function TrendLabel(count: int, labelSingular: string, labelPlural: string, fallback: string): (r: string)
    ensures count == 1 ==> r == if labelSingular != "" then labelSingular else fallback
    ensures count != 1 ==> r == if labelPlural != "" then labelPlural else fallback
  {
    var singular := if labelSingular != "" then labelSingular else fallback;
    var plural := if labelPlural != "" then labelPlural else fallback;
    if count == 1 then singular else plural
  }

  /** On the insights panel one like or report reads in the singular and any other count in the plural. */
  lemma InsightLabels(count: int)
    ensures TrendLabel(count, LikeSingular, LikePlural, "") == LikeSingular <==> count == 1
    ensures TrendLabel(count, FlagSingular, FlagPlural, "") == FlagSingular <==> count == 1
  {
  }

  /** `typeof count === 'number' ? count : 0` for the two seven-day totals. */
  function CountOrZero(v: Option<Value>): int {
    if v.Some? && v.value.Num? then v.value.n else 0
  }

  /** What the insights panel shows. */
  datatype Insights =
    | Shown(likes7d: int, flags7d: int, topLiked: seq<RankItem>, topFlagged: seq<RankItem>)
    | Unavailable

  /**
   * `escapeHtml(item.title)` in `renderTrendList` only succeeds for a string title or a missing one
   * (the `= ''` default); `null`, a number, a boolean, an array or an object has no `replace`.
   */
  predicate TitleRenders(item: RankItem) {
    item.title.None? || item.title.value.Str?
  }

  predicate ListRenders(items: seq<RankItem>) {
    forall i :: 0 <= i < |items| ==> TitleRenders(items[i])
  }

  /**
   * `loadInsights` after its three queries: both totals and both top lists, or the unavailable
   * state when a query rejected, a null stats row made the ranking throw, or a listed item's title
   * made the rendering throw. A query that resolves with an error is not rejected: its missing count
   * shows as 0 and its missing data as no rows.
   */
  function LoadInsights(noneRejected: bool, likesCount: Option<Value>, flagsCount: Option<Value>, stats: Option<Value>): (r: Insights)
    ensures r.Shown? <==>
      && noneRejected && Null !in StatsRows(stats)
      && ListRenders(TopList(stats, "video_likes").value) && ListRenders(TopList(stats, "video_flags").value)
    ensures r.Shown? ==>
      && r.topLiked == TopList(stats, "video_likes").value
      && r.topFlagged == TopList(stats, "video_flags").value
      && (likesCount.Some? && likesCount.value.Num? ==> r.likes7d == likesCount.value.n)
      && (likesCount.None? || !likesCount.value.Num? ==> r.likes7d == 0)
      && (flagsCount.Some? && flagsCount.value.Num? ==> r.flags7d == flagsCount.value.n)
      && (flagsCount.None? || !flagsCount.value.Num? ==> r.flags7d == 0)
  {
    if !noneRejected then Unavailable
    else match (TopList(stats, "video_likes"), TopList(stats, "video_flags"))
      case (Some(liked), Some(flagged)) =>
        if ListRenders(liked) && ListRenders(flagged) then Shown(CountOrZero(likesCount), CountOrZero(flagsCount), liked, flagged)
        else Unavailable
      case _ => Unavailable
  }

  /** Queries that resolve with errors carry no count and no data: the panel shows zeros and empty lists. */
  lemma ErroredQueriesShowZeros()
    ensures LoadInsights(true, None, None, None) == Shown(0, 0, [], [])
    ensures LoadInsights(true, Some(Null), Some(Null), Some(Null)) == Shown(0, 0, [], [])
  {
    assert Counted([], "video_likes") == Some([]);
    assert Counted([], "video_flags") == Some([]);
  }

  /** A liked video whose title is `null` makes the rendering throw, so the panel shows the unavailable state. */
  lemma NullTitleMakesInsightsUnavailable()
    ensures var row := Obj(map["id" := Num(1), "title" := Null, "video_likes" := Arr([Obj(map["count" := Num(3)])])]);
      LoadInsights(true, None, None, Some(Arr([row]))) == Unavailable
  {
    var row := Obj(map["id" := Num(1), "title" := Null, "video_likes" := Arr([Obj(map["count" := Num(3)])])]);
    var item := RankItem(Some(Num(1)), Some(Null), 3);
    assert Field(row, "id") == Some(Num(1)) && Field(row, "title") == Some(Null);
    assert AggregateCount(Field(row, "video_likes").GetOr(Null)) == 3;
    assert [row][1..] == [] && Counted([], "video_likes") == Some([]);
    assert Counted([row], "video_likes") == Some([item] + []);
    assert Positive([item]) == [item];
    assert SortByCount([item]) == [item];
    assert TopList(Some(Arr([row])), "video_likes") == Some([item]);
    assert !ListRenders([item]);
  }
}
