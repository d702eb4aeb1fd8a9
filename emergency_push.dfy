/** The `emergency-push` edge function: given a reported emergency, find the
    other users whose last known location lies in a small box around it and
    push one notification to each of them, isolating failures per user. */
module EmergencyPush {
  import opened Wrappers

  // ------------------------------------------------------------------ constants

  /** Half-width of the search box, in degrees of latitude and of longitude
      (about 500 m). */
  const Delta: real := 0.0045

  /** Notification title; the first character is U+1F6A8, the rotating light. */
  const Title: string := "\U{1F6A8} EMERGENCY NEARBY"

  /** Text appended to the emergency type to form the notification body. */
  const BodySuffix: string := " emergency within 500m! Tap to respond."

  /** Routing hint that makes the receiving app open its emergency screen. */
  const ClickAction: string := "FLUTTER_NOTIFICATION_CLICK"

  /** The HTTP method of a CORS preflight request. */
  const Preflight: string := "OPTIONS"

  // ------------------------------------------------------------------ data

  /** A row of the `user_locations` table. */
  datatype LocationRecord = LocationRecord(userId: string, fcmToken: Option<string>, lat: real, lng: real)

  /** A row as the query returns it: only the `user_id` and `fcm_token` columns. */
  datatype NearbyUser = NearbyUser(userId: string, fcmToken: Option<string>)

  /** The state of the directory seen by one query.  `NullData` is a reply that
      carries neither rows nor an error. */
  datatype Directory =
    | Table(rows: seq<LocationRecord>)
    | NullData
    | Unreachable(error: string)

  /** The `{ data, error }` pair the database client answers with. */
  datatype QueryReply = QueryReply(data: Option<seq<NearbyUser>>, error: Option<string>)

  /** A coordinate of the request: the number, and its `String(...)` rendering,
      which the model does not compute. */
  datatype Coordinate = Coordinate(degrees: real, text: string)

  /** The fields of the request body. */
  datatype EmergencyRequest = EmergencyRequest(emergencyId: string, userId: string, kind: string, lat: Coordinate, lng: Coordinate)

  /** An inbound request: its HTTP method and its body, or the message of the
      error thrown while parsing the body as JSON. */
  datatype HttpRequest = HttpRequest(verb: string, body: Result<EmergencyRequest, string>)

  /** The `data` object of a push notification. */
  datatype PushData = PushData(emergencyId: string, kind: string, lat: string, lng: string, clickAction: string)

  /** The arguments of one `sendFCM` call. */
  datatype PushMessage = PushMessage(token: Option<string>, title: string, body: string, data: PushData)

  /** The parsed JSON body of a push-service reply.  It is returned whatever the
      HTTP status, so a receipt does not mean the push was delivered; a body
      that is not JSON makes the call throw instead. */
  type Receipt = string

  /** The outcome of one `sendFCM` call: its receipt, or the message it threw. */
  type SendResult = Result<Receipt, string>

  /** One entry of the `details` list of the response. */
  datatype Detail =
    | Delivered(user: string, result: Receipt)
    | Failed(user: string, error: string)
  {
    /** The entry's `success` flag: the call returned without throwing. */
    predicate Success() { Delivered? }
  }

  /** The response of the handler. */
  datatype PushResponse =
    | PreflightOk                                            // body 'ok'
    | Summary(sent: nat, failed: nat, details: seq<Detail>)  // success: true
    | ServerError(error: string)                             // success: false

  /** HTTP status of a response. */
  function Status(r: PushResponse): int {
    match r
    case ServerError(_) => 500
    case _ => 200
  }

  // ------------------------------------------------------------------ selection

  /** The box filter: four inclusive one-sided comparisons on the location. */
  predicate InBox(lat: real, lng: real, centreLat: real, centreLng: real) {
    && centreLat - Delta <= lat && lat <= centreLat + Delta
    && centreLng - Delta <= lng && lng <= centreLng + Delta
  }

  /** The query's row filter: not the reporter, a token present, inside the box. */
  predicate Matches(rec: LocationRecord, reporter: string, lat: real, lng: real) {
    && rec.userId != reporter
    && rec.fcmToken.Some?
    && InBox(rec.lat, rec.lng, lat, lng)
  }

  /** The selected columns of a row. */
  function Project(rec: LocationRecord): NearbyUser {
    NearbyUser(rec.userId, rec.fcmToken)
  }

  /** The rows the query returns, in the order the database yields the rows
      (the query asks for no particular order). */
  function Select(rows: seq<LocationRecord>, reporter: string, lat: real, lng: real): (r: seq<NearbyUser>)
    ensures |r| <= |rows|
    decreases |rows|
  {
    if rows == [] then []
    else (if Matches(rows[0], reporter, lat, lng) then [Project(rows[0])] else [])
         + Select(rows[1..], reporter, lat, lng)
  }

  /** The reply of the directory to the nearby-users query. */
  function Query(dir: Directory, reporter: string, lat: real, lng: real): QueryReply {
    match dir
    case Table(rows) => QueryReply(Some(Select(rows, reporter, lat, lng)), None)
    case NullData => QueryReply(None, None)
    case Unreachable(e) => QueryReply(None, Some(e))
  }

  /** The users the send loop walks: the reply's rows, a null reply read as none. */
  function NearbyUsers(reply: QueryReply): seq<NearbyUser> {
    reply.data.GetOr([])
  }

  /** The users the handler will push to; empty when it stops before the loop. */
  function Recipients(req: HttpRequest, dir: Directory): seq<NearbyUser> {
    if req.verb == Preflight || req.body.Err? then []
    else
      var ev := req.body.value;
      var reply := Query(dir, ev.userId, ev.lat.degrees, ev.lng.degrees);
      if reply.error.Some? then [] else NearbyUsers(reply)
  }

  // ------------------------------------------------------------------ fan-out

  /** The notification sent to one token for an emergency. */
  function Message(ev: EmergencyRequest, token: Option<string>): PushMessage {
    PushMessage(token, Title, ev.kind + BodySuffix,
                PushData(ev.emergencyId, ev.kind, ev.lat.text, ev.lng.text, ClickAction))
  }

  /** The `details` entry for one user and the outcome of its send. */
  function DetailOf(user: NearbyUser, sent: SendResult): Detail {
    match sent
    case Ok(receipt) => Delivered(user.userId, receipt)
    case Err(e) => Failed(user.userId, e)
  }

  /** The `details` list for users paired with the outcomes of their sends. */
  function Details(users: seq<NearbyUser>, sends: seq<SendResult>): (r: seq<Detail>)
    requires |users| == |sends|
    ensures |r| == |users|
    decreases |users|
  {
    if users == [] then []
    else [DetailOf(users[0], sends[0])] + Details(users[1..], sends[1..])
  }

  /** The entries whose `success` flag is set, in order (the `sent` list). */
  function Successes(d: seq<Detail>): seq<Detail>
    decreases |d|
  {
    if d == [] then []
    else (if d[0].Success() then [d[0]] else []) + Successes(d[1..])
  }

  /** The entries whose `success` flag is clear, in order (the `failed` list). */
  function Failures(d: seq<Detail>): seq<Detail>
    decreases |d|
  {
    if d == [] then []
    else (if d[0].Success() then [] else [d[0]]) + Failures(d[1..])
  }

  /** Number of sends that returned without throwing. */
  function OkCount(sends: seq<SendResult>): nat
    decreases |sends|
  {
    if sends == [] then 0
    else (if sends[0].Ok? then 1 else 0) + OkCount(sends[1..])
  }

  /** The send loop: one `sendFCM` call per user, in order, each call's
      throw caught and recorded for that user only.  `sends[i]` is what the
      i-th call returns or throws; `calls` is the sequence of calls made. */
  method SendAll(ev: EmergencyRequest, users: seq<NearbyUser>, sends: seq<SendResult>)
    returns (results: seq<Detail>, calls: seq<PushMessage>)
    requires |sends| == |users|
    ensures results == Details(users, sends)
    ensures |results| == |users| && |calls| == |users|
    ensures forall i :: 0 <= i < |users| ==>
      && results[i].user == users[i].userId
      && (results[i].Success() <==> sends[i].Ok?)
      && (sends[i].Ok? ==> results[i].result == sends[i].value)
      && (sends[i].Err? ==> results[i].error == sends[i].error)
    ensures forall i :: 0 <= i < |users| ==>
      && calls[i].token == users[i].fcmToken
      && calls[i].title == Title
      && calls[i].body == ev.kind + BodySuffix
      && calls[i].data == PushData(ev.emergencyId, ev.kind, ev.lat.text, ev.lng.text, ClickAction)
  {
    results, calls := [], [];
    var i := 0;
    while i < |users|
      invariant 0 <= i <= |users|
      invariant |results| == i && |calls| == i
      invariant forall k :: 0 <= k < i ==> results[k] == DetailOf(users[k], sends[k])
      invariant forall k :: 0 <= k < i ==> calls[k] == Message(ev, users[k].fcmToken)
    {
      var user := users[i];
      calls := calls + [Message(ev, user.fcmToken)];
      match sends[i] {
        case Ok(receipt) =>
          results := results + [Delivered(user.userId, receipt)];
        case Err(e) =>
          results := results + [Failed(user.userId, e)];
      }
      i := i + 1;
    }
    forall k | 0 <= k < |users|
      ensures results[k] == Details(users, sends)[k]
    {
      DetailsAt(users, sends, k);
    }
  }

  /** The whole request handler.  `sends` holds the outcome of each push the
      handler attempts, in order; `calls` is the sequence of pushes it makes. */
  method HandleEmergencyPush(req: HttpRequest, dir: Directory, sends: seq<SendResult>)
    returns (resp: PushResponse, calls: seq<PushMessage>)
    requires |sends| == |Recipients(req, dir)|
    ensures req.verb == Preflight ==> resp == PreflightOk && calls == []
    ensures req.verb != Preflight && req.body.Err? ==>
      resp == ServerError(req.body.error) && calls == []
    ensures req.verb != Preflight && req.body.Ok? ==>
      var ev := req.body.value;
      var reply := Query(dir, ev.userId, ev.lat.degrees, ev.lng.degrees);
      if reply.error.Some? then
        resp == ServerError(reply.error.value) && calls == []
      else
        var d := Details(NearbyUsers(reply), sends);
        && resp == Summary(|Successes(d)|, |Failures(d)|, d)
        && |calls| == |d|
        && forall i :: 0 <= i < |calls| ==> calls[i] == Message(ev, NearbyUsers(reply)[i].fcmToken)
    ensures Status(resp) == 500 <==>
      (req.verb != Preflight && |calls| == 0 &&
       (req.body.Err? || Query(dir, req.body.value.userId, req.body.value.lat.degrees, req.body.value.lng.degrees).error.Some?))
  {
    if req.verb == Preflight {
      return PreflightOk, [];
    }
    if req.body.Err? {
      return ServerError(req.body.error), [];
    }
    var ev := req.body.value;
    var reply := Query(dir, ev.userId, ev.lat.degrees, ev.lng.degrees);
    if reply.error.Some? {
      return ServerError(reply.error.value), [];
    }
    var results;
    results, calls := SendAll(ev, NearbyUsers(reply), sends);
    resp := Summary(|Successes(results)|, |Failures(results)|, results);
  }

  // ------------------------------------------------------------------ lemmas: selection

  /** A user is returned iff some row passes the filter and projects to it. */
  lemma {:induction false} SelectMember(rows: seq<LocationRecord>, reporter: string, lat: real, lng: real, u: NearbyUser)
    ensures u in Select(rows, reporter, lat, lng) <==>
      exists i :: 0 <= i < |rows| && Matches(rows[i], reporter, lat, lng) && Project(rows[i]) == u
    decreases |rows|
  {
    if rows != [] {
      SelectMember(rows[1..], reporter, lat, lng, u);
      if u in Select(rows[1..], reporter, lat, lng) {
        var j :| 0 <= j < |rows[1..]| && Matches(rows[1..][j], reporter, lat, lng) && Project(rows[1..][j]) == u;
        assert rows[j + 1] == rows[1..][j];
      }
      if exists i :: 0 <= i < |rows| && Matches(rows[i], reporter, lat, lng) && Project(rows[i]) == u {
        var i :| 0 <= i < |rows| && Matches(rows[i], reporter, lat, lng) && Project(rows[i]) == u;
        if i > 0 {
          assert rows[1..][i - 1] == rows[i];
        }
      }
    }
  }

  /** Every returned user is someone other than the reporter and has a token. */
  lemma SelectedAreEligible(rows: seq<LocationRecord>, reporter: string, lat: real, lng: real)
    ensures forall u :: u in Select(rows, reporter, lat, lng) ==> u.userId != reporter && u.fcmToken.Some?
  {
    forall u | u in Select(rows, reporter, lat, lng)
      ensures u.userId != reporter && u.fcmToken.Some?
    {
      SelectMember(rows, reporter, lat, lng, u);
    }
  }

  /** Selection distributes over concatenation of the rows, so matching rows keep
      the order in which the database yields them. */
  lemma {:induction false} SelectAppend(a: seq<LocationRecord>, b: seq<LocationRecord>, reporter: string, lat: real, lng: real)
    ensures Select(a + b, reporter, lat, lng) == Select(a, reporter, lat, lng) + Select(b, reporter, lat, lng)
    decreases |a|
  {
    if a == [] {
      assert a + b == b;
    } else {
      var ab := a + b;
      assert ab[0] == a[0];
      assert ab[1..] == a[1..] + b;
      SelectAppend(a[1..], b, reporter, lat, lng);
      assert Select(ab, reporter, lat, lng)
          == (if Matches(a[0], reporter, lat, lng) then [Project(a[0])] else []) + Select(ab[1..], reporter, lat, lng);
    }
  }

  /** A row contributes its projection at its own place iff it passes the
      filter; a row that fails the filter (a token-less row among them)
      contributes nothing. */
  lemma RowSelectedIffMatches(a: seq<LocationRecord>, rec: LocationRecord, b: seq<LocationRecord>, reporter: string, lat: real, lng: real)
    ensures Select(a + [rec] + b, reporter, lat, lng) ==
      Select(a, reporter, lat, lng)
      + (if Matches(rec, reporter, lat, lng) then [Project(rec)] else [])
      + Select(b, reporter, lat, lng)
  {
    SelectAppend(a + [rec], b, reporter, lat, lng);
    SelectAppend(a, [rec], reporter, lat, lng);
    assert [rec][1..] == [];
  }

  function Abs(x: real): real { if x < 0.0 then -x else x }

  /** The four one-sided comparisons are the box of half-width `Delta`
      measured by absolute difference. */
  lemma InBoxIsDistanceBox(lat: real, lng: real, centreLat: real, centreLng: real)
    ensures InBox(lat, lng, centreLat, centreLng) <==>
      Abs(lat - centreLat) <= Delta && Abs(lng - centreLng) <= Delta
  {
  }

  /** The bounds are inclusive: a location exactly `Delta` away on either axis
      is inside, anything farther on one axis is outside. */
  lemma BoxBoundary(lat: real, lng: real, eps: real)
    requires eps > 0.0
    ensures InBox(lat + Delta, lng, lat, lng) && InBox(lat - Delta, lng + Delta, lat, lng)
    ensures !InBox(lat + Delta + eps, lng, lat, lng) && !InBox(lat, lng - Delta - eps, lat, lng)
  {
  }

  // ------------------------------------------------------------------ lemmas: fan-out

  /** The i-th entry of the details is the i-th user's outcome. */
  lemma {:induction false} DetailsAt(users: seq<NearbyUser>, sends: seq<SendResult>, i: nat)
    requires |users| == |sends| && i < |users|
    ensures Details(users, sends)[i] == DetailOf(users[i], sends[i])
    ensures Details(users, sends)[i].user == users[i].userId
    decreases i
  {
    if i > 0 {
      DetailsAt(users[1..], sends[1..], i - 1);
    }
  }

  /** Failure isolation: changing the outcome of one send changes that user's
      entry and no other. */
  lemma SendIsolation(users: seq<NearbyUser>, sends: seq<SendResult>, i: nat, other: SendResult)
    requires |users| == |sends| && i < |users|
    ensures Details(users, sends[i := other]) == Details(users, sends)[i := DetailOf(users[i], other)]
  {
    var lhs := Details(users, sends[i := other]);
    var rhs := Details(users, sends)[i := DetailOf(users[i], other)];
    forall k | 0 <= k < |users|
      ensures lhs[k] == rhs[k]
    {
      DetailsAt(users, sends[i := other], k);
      DetailsAt(users, sends, k);
    }
  }

  /** `sent + failed == results.length`. */
  lemma {:induction false} CountsPartition(d: seq<Detail>)
    ensures |Successes(d)| + |Failures(d)| == |d|
    ensures forall x :: x in Successes(d) ==> x in d && x.Success()
    ensures forall x :: x in Failures(d) ==> x in d && !x.Success()
    decreases |d|
  {
    if d != [] {
      CountsPartition(d[1..]);
    }
  }

  /** `sent` counts the sends that did not throw, `failed` the ones that did. */
  lemma {:induction false} CountsMatchSends(users: seq<NearbyUser>, sends: seq<SendResult>)
    requires |users| == |sends|
    ensures |Successes(Details(users, sends))| == OkCount(sends)
    ensures |Failures(Details(users, sends))| == |sends| - OkCount(sends)
    decreases |users|
  {
    if users != [] {
      CountsMatchSends(users[1..], sends[1..]);
      CountsPartition(Details(users[1..], sends[1..]));
    }
  }

  /** The reporter, and every user without a token, are absent from the details
      of a handled request, and there is one entry per recipient. */
  lemma DetailsExcludeIneligible(rows: seq<LocationRecord>, reporter: string, lat: real, lng: real, sends: seq<SendResult>)
    requires |sends| == |Select(rows, reporter, lat, lng)|
    ensures forall k :: 0 <= k < |sends| ==>
      Details(Select(rows, reporter, lat, lng), sends)[k].user != reporter
    ensures |Successes(Details(Select(rows, reporter, lat, lng), sends))|
          + |Failures(Details(Select(rows, reporter, lat, lng), sends))|
          == |Select(rows, reporter, lat, lng)|
  {
    var users := Select(rows, reporter, lat, lng);
    SelectedAreEligible(rows, reporter, lat, lng);
    forall k | 0 <= k < |sends|
      ensures Details(users, sends)[k].user != reporter
    {
      DetailsAt(users, sends, k);
      assert users[k] in users;
    }
    CountsPartition(Details(users, sends));
  }

  /** Three neighbours of an emergency in Dhaka: one in range with a token, one
      in range without a token, one out of range.  Only the first is pushed to. */
  lemma ThreeNeighbours(receipt: Receipt)
    ensures
      var rows := [
        LocationRecord("near", Some("tok-1"), 23.8110, 90.4130),
        LocationRecord("tokenless", None, 23.8100, 90.4120),
        LocationRecord("far", Some("tok-3"), 23.8200, 90.4125)];
      var users := Select(rows, "reporter", 23.8103, 90.4125);
      var d := Details(users, [Ok(receipt)]);
      && users == [NearbyUser("near", Some("tok-1"))]
      && |Successes(d)| == 1 && |Failures(d)| == 0 && |d| == 1
  {
    var rows := [
      LocationRecord("near", Some("tok-1"), 23.8110, 90.4130),
      LocationRecord("tokenless", None, 23.8100, 90.4120),
      LocationRecord("far", Some("tok-3"), 23.8200, 90.4125)];
    assert rows[1..][1..][1..] == [];
    assert Select(rows[1..][1..], "reporter", 23.8103, 90.4125) == [];
    assert Select(rows[1..], "reporter", 23.8103, 90.4125) == [];
    var users := Select(rows, "reporter", 23.8103, 90.4125);
    assert users == [NearbyUser("near", Some("tok-1"))];
    var d := Details(users, [Ok(receipt)]);
    assert d == [Delivered("near", receipt)];
    assert Successes(d[1..]) == [] && Failures(d[1..]) == [];
  }
}
