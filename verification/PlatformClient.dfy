/** The platform client of cast/sender/cast_platform_client.cc: it matches availability requests to
    answers, timeouts, cancellations and removals.

    A callback is known by the number of the RequestAppAvailability call that passed it in. Callbacks
    do not call the client back. A request's timeout is a call of CancelAppAvailabilityRequest with its
    id; the Alarm behind it dies with the request. Request ids are unbounded integers here, from a counter
    that other clients use too. */
module PlatformClients {
  import opened Basics
  import opened Ids
  import opened Trackers

  datatype Request = Request(requestId: nat, appId: Id, callback: nat)
  datatype Ran = Ran(callback: nat, appId: Id, verdict: Verdict)
  // What has become of a callback.
  datatype Fate = Waiting(receiver: Id) | Answered | Dropped

  datatype State = State(
    sockets: map<Id, int>,
    pending: map<Id, seq<Request>>,
    nextRequestId: nat,
    ran: seq<Ran>,              // callbacks run, in order
    owner: map<nat, Id>,        // the receiver each request id was handed out for
    fates: seq<Fate>)           // one for each callback passed in

  // ---------- The laws

  ghost predicate InRow(requests: seq<Request>, c: nat) {
    exists i :: 0 <= i < |requests| && requests[i].callback == c
  }

  ghost predicate HasRun(ran: seq<Ran>, c: nat) {
    exists i :: 0 <= i < |ran| && ran[i].callback == c
  }

  // A row of pending requests is in the order in which they were made.
  ghost predicate Ordered(requests: seq<Request>) {
    forall i, j :: 0 <= i < j < |requests| ==>
      requests[i].requestId < requests[j].requestId && requests[i].callback < requests[j].callback
  }

  // The requests of one receiver are its own, and their callbacks are waiting.
  ghost predicate RowLawful(c: State, r: Id, requests: seq<Request>) {
    Ordered(requests) &&
    forall i :: 0 <= i < |requests| ==>
      && requests[i].requestId in c.owner && c.owner[requests[i].requestId] == r
      && requests[i].callback < |c.fates| && c.fates[requests[i].callback] == Waiting(r)
  }

  ghost predicate RowsLawful(c: State) {
    forall r :: r in c.pending ==> RowLawful(c, r, c.pending[r])
  }

  ghost predicate IdsHandedOut(c: State) {
    forall x :: x in c.owner ==> x < c.nextRequestId
  }

  // Callbacks run at most once.
  ghost predicate RanOnce(c: State) {
    && (forall i :: 0 <= i < |c.ran| ==> c.ran[i].callback < |c.fates| && c.fates[c.ran[i].callback] == Answered)
    && (forall i, j :: 0 <= i < j < |c.ran| ==> c.ran[i].callback != c.ran[j].callback)
  }

  // Each callback is where its fate says.
  ghost predicate Accounted(c: State, n: nat)
    requires n < |c.fates|
  {
    match c.fates[n]
    case Waiting(r) => r in c.pending && InRow(c.pending[r], n)
    case Answered => HasRun(c.ran, n)
    case Dropped => true
  }

  ghost predicate AllAccounted(c: State) {
    forall n :: 0 <= n < |c.fates| ==> Accounted(c, n)
  }

  ghost predicate Inv(c: State) {
    RowsLawful(c) && IdsHandedOut(c) && RanOnce(c) && AllAccounted(c)
  }

  ghost predicate PlaceOf(pending: map<Id, seq<Request>>, requestId: nat, r: Id, i: int) {
    r in pending && 0 <= i < |pending[r]| && pending[r][i].requestId == requestId
  }

  // A pending request id sits in one place, under one receiver.
  lemma OnePlace(c: State, requestId: nat, r: Id, i: nat, s: Id, j: nat)
    requires Inv(c) && PlaceOf(c.pending, requestId, r, i) && PlaceOf(c.pending, requestId, s, j)
    ensures r == s && i == j
  {
    assert RowLawful(c, r, c.pending[r]) && RowLawful(c, s, c.pending[s]);
  }

  // Every callback passed in is waiting, has run or was dropped, and only one of these.
  lemma OneFate(c: State, n: nat)
    requires Inv(c) && n < |c.fates|
    ensures HasRun(c.ran, n) <==> c.fates[n].Answered?
    ensures (exists r :: r in c.pending && InRow(c.pending[r], n)) <==> c.fates[n].Waiting?
    ensures forall i, j ::
              0 <= i < |c.ran| && 0 <= j < |c.ran| && c.ran[i].callback == c.ran[j].callback == n ==> i == j
  {
    assert Accounted(c, n);
    forall r | r in c.pending && InRow(c.pending[r], n) ensures c.fates[n].Waiting? {
      assert RowLawful(c, r, c.pending[r]);
    }
  }

  // ---------- Steps

  function At(pending: map<Id, seq<Request>>, r: Id): seq<Request> {
    if r in pending then pending[r] else []
  }

  function Without(requests: seq<Request>, i: nat): seq<Request>
    requires i < |requests|
  {
    requests[..i] + requests[i + 1..]
  }

  // A request to a receiver without a socket is answered at once.
  function AnsweredAtOnce(c: State, app: Id): State {
    c.(fates := c.fates + [Answered], ran := c.ran + [Ran(|c.fates|, app, Unknown)])
  }

  function Enqueued(c: State, r: Id, app: Id): State {
    c.(pending := c.pending[r := At(c.pending, r) + [Request(c.nextRequestId, app, |c.fates|)]],
       nextRequestId := c.nextRequestId + 1,
       owner := c.owner[c.nextRequestId := r], fates := c.fates + [Waiting(r)])
  }

  // The request in the given place is erased, after its callback ran with a verdict, if there is one.
  function Settled(c: State, r: Id, i: nat, verdict: Option<Verdict>): State
    requires r in c.pending && i < |c.pending[r]| && c.pending[r][i].callback < |c.fates|
  {
    var q := c.pending[r][i];
    var d := c.(pending := c.pending[r := Without(c.pending[r], i)]);
    match verdict
    case None => d.(fates := c.fates[q.callback := Dropped])
    case Some(v) => d.(fates := c.fates[q.callback := Answered], ran := c.ran + [Ran(q.callback, q.appId, v)])
  }

  // ---------- Every step keeps the laws

  lemma AnsweredAtOnceKeeps(c: State, app: Id)
    requires Inv(c)
    ensures Inv(AnsweredAtOnce(c, app))
  {
    var d := AnsweredAtOnce(c, app);
    forall r | r in d.pending ensures RowLawful(d, r, d.pending[r]) { assert RowLawful(c, r, c.pending[r]); }
    forall n | 0 <= n < |d.fates| ensures Accounted(d, n) {
      if n < |c.fates| {
        assert Accounted(c, n);
        StillRun(c.ran, d.ran[|c.ran|], n);
      } else {
        assert d.ran[|c.ran|].callback == n;
      }
    }
  }

  lemma StillRun(ran: seq<Ran>, more: Ran, n: nat)
    ensures HasRun(ran, n) ==> HasRun(ran + [more], n)
  {
    if HasRun(ran, n) {
      var i :| 0 <= i < |ran| && ran[i].callback == n;
      assert (ran + [more])[i].callback == n;
    }
  }

  lemma StillInRow(requests: seq<Request>, more: Request, n: nat)
    ensures InRow(requests, n) ==> InRow(requests + [more], n)
  {
    if InRow(requests, n) {
      var i :| 0 <= i < |requests| && requests[i].callback == n;
      assert (requests + [more])[i].callback == n;
    }
  }

  lemma EnqueuedRow(c: State, r: Id, app: Id, s: Id)
    requires Inv(c) && s in Enqueued(c, r, app).pending
    ensures RowLawful(Enqueued(c, r, app), s, Enqueued(c, r, app).pending[s])
  {
    if s in c.pending { assert RowLawful(c, s, c.pending[s]); }
    if s == r { EnqueuedOwnRow(c, r, app); }
  }

  // The receiver's row grows by a request newer than all before it.
  lemma EnqueuedOwnRow(c: State, r: Id, app: Id)
    requires IdsHandedOut(c) && RowLawful(c, r, At(c.pending, r))
    ensures RowLawful(Enqueued(c, r, app), r, Enqueued(c, r, app).pending[r])
  {
    var row, q := At(c.pending, r), Request(c.nextRequestId, app, |c.fates|);
    forall i | 0 <= i < |row| ensures row[i].requestId < q.requestId && row[i].callback < q.callback {}
    assert Ordered(row + [q]);
  }

  lemma EnqueuedAccounted(c: State, r: Id, app: Id, n: nat)
    requires AllAccounted(c) && n < |Enqueued(c, r, app).fates|
    ensures Accounted(Enqueued(c, r, app), n)
  {
    var d := Enqueued(c, r, app);
    if n < |c.fates| {
      assert Accounted(c, n);
      StillInRow(At(c.pending, r), Request(c.nextRequestId, app, |c.fates|), n);
    } else {
      assert d.pending[r][|d.pending[r]| - 1].callback == n;
    }
  }

  lemma EnqueuedKeeps(c: State, r: Id, app: Id)
    requires Inv(c)
    ensures Inv(Enqueued(c, r, app))
  {
    var d := Enqueued(c, r, app);
    forall s | s in d.pending ensures RowLawful(d, s, d.pending[s]) { EnqueuedRow(c, r, app, s); }
    forall n | 0 <= n < |d.fates| ensures Accounted(d, n) { EnqueuedAccounted(c, r, app, n); }
  }

  lemma WithoutKeeps(requests: seq<Request>, i: nat, n: nat)
    requires i < |requests| && requests[i].callback != n
    ensures InRow(requests, n) ==> InRow(Without(requests, i), n)
  {
    if InRow(requests, n) {
      var j :| 0 <= j < |requests| && requests[j].callback == n;
      assert Without(requests, i)[if j < i then j else j - 1].callback == n;
    }
  }

  lemma WithoutOrdered(requests: seq<Request>, i: nat)
    requires i < |requests| && Ordered(requests)
    ensures Ordered(Without(requests, i))
    ensures forall k :: 0 <= k < |Without(requests, i)| ==>
              Without(requests, i)[k] in requests && Without(requests, i)[k].callback != requests[i].callback
  {
    var rest := Without(requests, i);
    forall k | 0 <= k < |rest| ensures rest[k] == requests[if k < i then k else k + 1] {}
  }

  lemma SettledRow(c: State, r: Id, i: nat, verdict: Option<Verdict>, s: Id)
    requires RowsLawful(c) && r in c.pending && i < |c.pending[r]| && c.pending[r][i].callback < |c.fates|
    requires s in c.pending
    ensures var d := Settled(c, r, i, verdict); RowLawful(d, s, d.pending[s])
  {
    assert RowLawful(c, s, c.pending[s]) && RowLawful(c, r, c.pending[r]);
    var d := Settled(c, r, i, verdict);
    if s == r {
      WithoutOrdered(c.pending[r], i);
      forall k | 0 <= k < |d.pending[r]|
        ensures d.pending[r][k].requestId in d.owner && d.owner[d.pending[r][k].requestId] == r
        ensures d.pending[r][k].callback < |d.fates| && d.fates[d.pending[r][k].callback] == Waiting(r)
      {
        var j :| 0 <= j < |c.pending[r]| && c.pending[r][j] == d.pending[r][k];
      }
    }
  }

  lemma SettledKeeps(c: State, r: Id, i: nat, verdict: Option<Verdict>)
    requires Inv(c) && r in c.pending && i < |c.pending[r]|
    ensures c.pending[r][i].callback < |c.fates| && Inv(Settled(c, r, i, verdict))
    ensures forall s, j :: !PlaceOf(Settled(c, r, i, verdict).pending, c.pending[r][i].requestId, s, j)
  {
    assert RowLawful(c, r, c.pending[r]);
    var q := c.pending[r][i];
    var d := Settled(c, r, i, verdict);
    forall s | s in d.pending ensures RowLawful(d, s, d.pending[s]) { SettledRow(c, r, i, verdict, s); }
    forall n | 0 <= n < |d.fates| ensures Accounted(d, n) {
      assert Accounted(c, n);
      if n != q.callback {
        WithoutKeeps(c.pending[r], i, n);
        if verdict.Some? { StillRun(c.ran, Ran(q.callback, q.appId, verdict.value), n); }
      } else if verdict.Some? {
        assert d.ran[|c.ran|].callback == n;
      }
    }
    SettledIsGone(c, d, r, i);
  }

  lemma SettledIsGone(c: State, d: State, r: Id, i: nat)
    requires Inv(c) && r in c.pending && i < |c.pending[r]|
    requires d.pending == c.pending[r := Without(c.pending[r], i)]
    ensures forall s, j :: !PlaceOf(d.pending, c.pending[r][i].requestId, s, j)
  {
    var x := c.pending[r][i].requestId;
    forall s, j | s in d.pending && 0 <= j < |d.pending[s]| ensures d.pending[s][j].requestId != x {
      assert RowLawful(c, s, c.pending[s]) && RowLawful(c, r, c.pending[r]);
    }
  }

  // A receiver with no requests left may be forgotten.
  lemma ForgetKeeps(c: State, r: Id)
    requires Inv(c) && At(c.pending, r) == []
    ensures Inv(c.(pending := c.pending - {r}))
  {
    var d := c.(pending := c.pending - {r});
    forall s | s in d.pending ensures RowLawful(d, s, d.pending[s]) { assert RowLawful(c, s, c.pending[s]); }
    forall n | 0 <= n < |d.fates| ensures Accounted(d, n) { assert Accounted(c, n); }
  }

  lemma SocketsKeep(c: State, sockets: map<Id, int>)
    requires Inv(c)
    ensures Inv(c.(sockets := sockets))
  {
    var d := c.(sockets := sockets);
    forall s | s in d.pending ensures RowLawful(d, s, d.pending[s]) { assert RowLawful(c, s, c.pending[s]); }
    forall n | 0 <= n < |d.fates| ensures Accounted(d, n) { assert Accounted(c, n); }
  }

  lemma CounterKeeps(c: State, ids: nat)
    requires Inv(c)
    ensures Inv(c.(nextRequestId := c.nextRequestId + ids))
  {
    var d := c.(nextRequestId := c.nextRequestId + ids);
    forall s | s in d.pending ensures RowLawful(d, s, d.pending[s]) { assert RowLawful(c, s, c.pending[s]); }
    forall n | 0 <= n < |d.fates| ensures Accounted(d, n) { assert Accounted(c, n); }
  }

  function AllUnknown(requests: seq<Request>): (ran: seq<Ran>)
    ensures |ran| == |requests|
  {
    seq(|requests|, i requires 0 <= i < |requests| => Ran(requests[i].callback, requests[i].appId, Unknown))
  }

  // The first request of a receiver is answered with Unknown.
  lemma AnswerFirst(c: State, r: Id) returns (e: State)
    requires Inv(c) && r in c.pending && c.pending[r] != []
    ensures var first := c.pending[r][0];
            && Inv(e) && first.callback < |c.fates| && c.fates[first.callback] == Waiting(r)
            && e == c.(pending := c.pending[r := c.pending[r][1..]],
                       ran := c.ran + [Ran(first.callback, first.appId, Unknown)],
                       fates := c.fates[first.callback := Answered])
  {
    assert RowLawful(c, r, c.pending[r]);
    SettledKeeps(c, r, 0, Some(Unknown));
    assert Without(c.pending[r], 0) == c.pending[r][1..];
    e := Settled(c, r, 0, Some(Unknown));
  }

  lemma NobodyWaits(c: State, r: Id)
    requires Inv(c) && At(c.pending, r) == []
    ensures forall n :: 0 <= n < |c.fates| ==> c.fates[n] != Waiting(r)
  {
    forall n | 0 <= n < |c.fates| ensures c.fates[n] != Waiting(r) { assert Accounted(c, n); }
  }

  lemma AllUnknownSplit(row: seq<Request>)
    requires row != []
    ensures AllUnknown(row) == [Ran(row[0].callback, row[0].appId, Unknown)] + AllUnknown(row[1..])
  {}

  // All requests of one receiver are answered with Unknown, from the first to the last.
  lemma {:induction false} AnswerRow(c: State, r: Id) returns (d: State)
    requires Inv(c) && r in c.pending
    ensures Inv(d) && d == c.(pending := c.pending[r := []], ran := c.ran + AllUnknown(c.pending[r]), fates := d.fates)
    ensures |d.fates| == |c.fates|
    ensures forall n :: 0 <= n < |c.fates| ==>
              d.fates[n] == if c.fates[n] == Waiting(r) then Answered else c.fates[n]
    decreases |c.pending[r]|
  {
    if c.pending[r] == [] {
      d := c;
      assert c.pending[r := []] == c.pending && c.ran + AllUnknown(c.pending[r]) == c.ran;
      NobodyWaits(c, r);
    } else {
      var e := AnswerFirst(c, r);
      d := AnswerRow(e, r);
      AllUnknownSplit(c.pending[r]);
    }
  }

  // ---------- The client's operations

  // The first request with the id, or the end of the row.
  function IndexOf(requests: seq<Request>, requestId: nat): (i: nat)
    ensures i <= |requests| && (i < |requests| ==> requests[i].requestId == requestId)
    ensures forall j :: 0 <= j < i ==> requests[j].requestId != requestId
  {
    if requests == [] || requests[0].requestId == requestId then 0 else
      var i := IndexOf(requests[1..], requestId);
      assert forall j :: 1 <= j < i + 1 ==> requests[j] == requests[1..][j - 1];
      i + 1
  }

  // A receiver's own request with the id is settled, if there is one.
  function SettledFor(c: State, r: Id, requestId: nat, verdict: Option<Verdict>): State {
    var row := At(c.pending, r);
    var i := IndexOf(row, requestId);
    if i < |row| && row[i].callback < |c.fates| then Settled(c, r, i, verdict) else c
  }

  // The request with the id is settled, whichever receiver it is for.
  function SettledAnywhere(c: State, requestId: nat, verdict: Option<Verdict>): State {
    if requestId in c.owner then SettledFor(c, c.owner[requestId], requestId, verdict) else c
  }

  // The first receiver, in order, with the socket.
  function FirstWith(sockets: map<Id, int>, socket: int): Option<Id> {
    var holders := set r | r in sockets && sockets[r] == socket;
    if holders == {} then None else Some(Least(holders))
  }

  function Responded(c: State, socket: int, requestId: nat, usable: Option<Verdict>): State {
    var r := FirstWith(c.sockets, socket);
    if r.Some? then SettledFor(c, r.value, requestId, usable) else c
  }

  function NoLongerWaiting(fates: seq<Fate>, r: Id): (after: seq<Fate>)
    ensures |after| == |fates|
  {
    seq(|fates|, n requires 0 <= n < |fates| => if fates[n] == Waiting(r) then Answered else fates[n])
  }

  // All requests for the receiver are answered with Unknown, in order, and the receiver is forgotten.
  function RowAnswered(c: State, r: Id): State {
    c.(pending := c.pending - {r}, ran := c.ran + AllUnknown(At(c.pending, r)), fates := NoLongerWaiting(c.fates, r))
  }

  function Removed(c: State, r: Id): State { RowAnswered(c, r).(sockets := c.sockets - {r}) }

  function RowsAnswered(c: State, keys: seq<Id>): State
    decreases |keys|
  {
    if keys == [] then c else RowsAnswered(RowAnswered(c, keys[0]), keys[1..])
  }

  function Destroyed(c: State): State { RowsAnswered(c, Sorted(c.pending.Keys)) }

  datatype Operation =
    | Ask(receiver: Id, app: Id)
    | Cancel(requestId: nat)
    | Respond(socket: int, requestId: nat, usable: Option<Verdict>)
    | TimeOut(requestId: nat)
    | AddOrUpdate(receiver: Id, socket: int)
    | Remove(receiver: Id)
    | Destroy
    | OthersAsk(ids: nat)       // other clients take ids from the shared counter

  function Next(c: State, e: Operation): State {
    match e
    case Ask(r, app) => if r in c.sockets then Enqueued(c, r, app) else AnsweredAtOnce(c, app)
    case Cancel(x) => SettledAnywhere(c, x, None)
    case Respond(socket, x, usable) => Responded(c, socket, x, usable)
    case TimeOut(x) => SettledAnywhere(c, x, Some(Unknown))
    case AddOrUpdate(r, socket) => c.(sockets := c.sockets[r := socket])
    case Remove(r) => Removed(c, r)
    case Destroy => Destroyed(c)
    case OthersAsk(ids) => c.(nextRequestId := c.nextRequestId + ids)
  }

  // ---------- What each does to one callback

  // Callback `n` waits for the answer to request `x` of receiver `r`.
  ghost predicate Pends(c: State, n: nat, r: Id, x: nat) {
    r in c.pending && exists i ::
      0 <= i < |c.pending[r]| && c.pending[r][i].callback == n && c.pending[r][i].requestId == x
  }

  // The request of callback `n` is cancelled while it is pending, or the first receiver with the socket is
  // the one asked and answers with nothing usable.
  ghost predicate Loses(c: State, e: Operation, n: nat) {
    match e
    case Cancel(x) => x in c.owner && Pends(c, n, c.owner[x], x)
    case Respond(socket, x, usable) =>
      usable.None? && FirstWith(c.sockets, socket).Some? && Pends(c, n, FirstWith(c.sockets, socket).value, x)
    case _ => false
  }

  predicate WasDropped(c: State, n: nat) { n < |c.fates| && c.fates[n].Dropped? }

  // Callbacks that ran or were dropped stay so.
  ghost predicate Follows(c: State, d: State) {
    && c.ran <= d.ran && |c.fates| <= |d.fates|
    && forall n :: 0 <= n < |c.fates| && !c.fates[n].Waiting? ==> d.fates[n] == c.fates[n]
  }

  // The place of a pending request is where its owner's row says.
  lemma PlaceIs(c: State, requestId: nat, r: Id, i: nat)
    requires Inv(c) && PlaceOf(c.pending, requestId, r, i)
    ensures requestId in c.owner && c.owner[requestId] == r && IndexOf(c.pending[r], requestId) == i
    ensures c.pending[r][i].callback < |c.fates|
  {
    assert RowLawful(c, r, c.pending[r]);
  }

  lemma SettledForKeeps(c: State, r: Id, x: nat, verdict: Option<Verdict>)
    requires Inv(c)
    ensures Inv(SettledFor(c, r, x, verdict)) && Follows(c, SettledFor(c, r, x, verdict))
    ensures forall n: nat :: WasDropped(SettledFor(c, r, x, verdict), n)
                             <==> WasDropped(c, n) || (verdict.None? && Pends(c, n, r, x))
  {
    var row := At(c.pending, r);
    var i := IndexOf(row, x);
    if i < |row| {
      SettledKeeps(c, r, i, verdict);
      assert RowLawful(c, r, c.pending[r]);
      assert Pends(c, row[i].callback, r, x);
      assert forall n: nat :: Pends(c, n, r, x) ==> n == row[i].callback;
    } else {
      assert forall n: nat :: !Pends(c, n, r, x);
    }
  }

  lemma SettledAnywhereKeeps(c: State, x: nat, verdict: Option<Verdict>)
    requires Inv(c)
    ensures Inv(SettledAnywhere(c, x, verdict)) && Follows(c, SettledAnywhere(c, x, verdict))
    ensures forall n: nat :: WasDropped(SettledAnywhere(c, x, verdict), n)
                             <==> WasDropped(c, n) || (verdict.None? && x in c.owner && Pends(c, n, c.owner[x], x))
  {
    if x in c.owner { SettledForKeeps(c, c.owner[x], x, verdict); }
  }

  lemma NothingToAnswer(c: State, r: Id)
    requires Inv(c) && r !in c.pending
    ensures RowAnswered(c, r) == c
  {
    NobodyWaits(c, r);
    assert NoLongerWaiting(c.fates, r) == c.fates && c.pending - {r} == c.pending;
    assert c.ran + AllUnknown([]) == c.ran;
  }

  lemma RowAnsweredKeeps(c: State, r: Id)
    requires Inv(c)
    ensures Inv(RowAnswered(c, r)) && Follows(c, RowAnswered(c, r))
    ensures forall n: nat :: WasDropped(RowAnswered(c, r), n) <==> WasDropped(c, n)
  {
    if r in c.pending {
      var d := AnswerRow(c, r);
      ForgetKeeps(d, r);
      assert d.fates == NoLongerWaiting(c.fates, r);
      assert d.(pending := d.pending - {r}) == RowAnswered(c, r);
    } else {
      NothingToAnswer(c, r);
    }
  }

  lemma {:induction false} RowsAnsweredKeeps(c: State, keys: seq<Id>)
    requires Inv(c)
    ensures Inv(RowsAnswered(c, keys)) && Follows(c, RowsAnswered(c, keys))
    ensures forall n: nat :: WasDropped(RowsAnswered(c, keys), n) <==> WasDropped(c, n)
    ensures forall r :: r in RowsAnswered(c, keys).pending ==> r in c.pending && r !in keys
    decreases |keys|
  {
    if keys != [] {
      RowAnsweredKeeps(c, keys[0]);
      RowsAnsweredKeeps(RowAnswered(c, keys[0]), keys[1..]);
      assert keys == [keys[0]] + keys[1..];
    }
  }

  lemma AskedKeeps(c: State, r: Id, app: Id)
    requires Inv(c)
    ensures Inv(Next(c, Ask(r, app))) && Follows(c, Next(c, Ask(r, app)))
    ensures forall n: nat :: WasDropped(Next(c, Ask(r, app)), n) <==> WasDropped(c, n)
  {
    if r in c.sockets { EnqueuedKeeps(c, r, app); } else { AnsweredAtOnceKeeps(c, app); }
  }

  lemma RespondedKeeps(c: State, socket: int, x: nat, usable: Option<Verdict>)
    requires Inv(c)
    ensures Inv(Responded(c, socket, x, usable)) && Follows(c, Responded(c, socket, x, usable))
    ensures forall n: nat :: WasDropped(Responded(c, socket, x, usable), n)
                             <==> WasDropped(c, n) || Loses(c, Respond(socket, x, usable), n)
  {
    var r := FirstWith(c.sockets, socket);
    if r.Some? { SettledForKeeps(c, r.value, x, usable); }
  }

  // Every operation keeps the laws, and drops exactly the callbacks that lose their request by it.
  lemma NextKeeps(c: State, e: Operation)
    requires Inv(c)
    ensures Inv(Next(c, e)) && Follows(c, Next(c, e))
    ensures forall n: nat :: WasDropped(Next(c, e), n) <==> WasDropped(c, n) || Loses(c, e, n)
  {
    match e
    case Ask(r, app) => AskedKeeps(c, r, app);
    case Cancel(x) => SettledAnywhereKeeps(c, x, None);
    case Respond(socket, x, usable) => RespondedKeeps(c, socket, x, usable);
    case TimeOut(x) => SettledAnywhereKeeps(c, x, Some(Unknown));
    case AddOrUpdate(r, socket) => SocketsKeep(c, c.sockets[r := socket]);
    case Remove(r) => RowAnsweredKeeps(c, r); SocketsKeep(RowAnswered(c, r), c.sockets - {r});
    case Destroy => RowsAnsweredKeeps(c, Sorted(c.pending.Keys));
    case OthersAsk(ids) => CounterKeeps(c, ids);
  }

  // ---------- Following one request

  // Callback `n` waits for what receiver `r` answers about `app` to request `x`.
  ghost predicate Awaits(c: State, n: nat, r: Id, x: nat, app: Id) {
    r in c.pending && Request(x, app, n) in c.pending[r]
  }

  // A receiver with a socket is asked under the next id, and the callback waits for its answer; without one
  // the callback runs at once, with Unknown.
  lemma AskDoes(c: State, r: Id, app: Id)
    ensures var d := Next(c, Ask(r, app));
            && |d.fates| == |c.fates| + 1 && d.sockets == c.sockets
            && (r in c.sockets ==> Awaits(d, |c.fates|, r, c.nextRequestId, app) && d.ran == c.ran)
            && (r !in c.sockets ==> d.ran == c.ran + [Ran(|c.fates|, app, Unknown)] && d.pending == c.pending)
  {
  }

  // A receiver has the socket it was last given, until it is removed.
  lemma SocketsDo(c: State, r: Id, socket: int)
    ensures Next(c, AddOrUpdate(r, socket)).sockets == c.sockets[r := socket]
    ensures Next(c, Remove(r)).sockets == c.sockets - {r}
  {
  }

  lemma AwaitsPlace(c: State, n: nat, r: Id, x: nat, app: Id) returns (i: nat)
    requires Inv(c) && Awaits(c, n, r, x, app)
    ensures i < |c.pending[r]| && c.pending[r][i] == Request(x, app, n) && IndexOf(c.pending[r], x) == i
    ensures x in c.owner && c.owner[x] == r && n < |c.fates|
  {
    i :| 0 <= i < |c.pending[r]| && c.pending[r][i] == Request(x, app, n);
    PlaceIs(c, x, r, i);
  }

  lemma OthersStillAwait(c: State, s: Id, y: nat, verdict: Option<Verdict>, n: nat, r: Id, x: nat, app: Id)
    requires Inv(c) && Awaits(c, n, r, x, app) && (s != r || y != x)
    ensures Awaits(SettledFor(c, s, y, verdict), n, r, x, app)
  {
    var i := AwaitsPlace(c, n, r, x, app);
    var row := At(c.pending, s);
    var j := IndexOf(row, y);
    if s == r && j < |row| && row[j].callback < |c.fates| {
      var after := Without(row, j);
      assert row[i] == Request(x, app, n);
      assert after[if i < j then i else i - 1] == row[i];
    }
  }

  // The request itself is settled: its callback runs with the verdict, if there is one, and not otherwise.
  lemma OwnIsSettled(c: State, verdict: Option<Verdict>, n: nat, r: Id, x: nat, app: Id)
    requires Inv(c) && Awaits(c, n, r, x, app)
    ensures x in c.owner && c.owner[x] == r
    ensures SettledFor(c, r, x, verdict).ran == c.ran + if verdict.Some? then [Ran(n, app, verdict.value)] else []
  {
    var i := AwaitsPlace(c, n, r, x, app);
  }

  lemma RowIsAnswered(c: State, n: nat, r: Id, x: nat, app: Id)
    requires Inv(c) && Awaits(c, n, r, x, app)
    ensures Ran(n, app, Unknown) in RowAnswered(c, r).ran
    ensures forall s :: s != r ==> Awaits(RowAnswered(c, s), n, r, x, app)
  {
    var i := AwaitsPlace(c, n, r, x, app);
    assert AllUnknown(At(c.pending, r))[i] == Ran(n, app, Unknown);
  }

  lemma {:induction false} RowsAreAnswered(c: State, keys: seq<Id>, n: nat, r: Id, x: nat, app: Id)
    requires Inv(c) && (Ran(n, app, Unknown) in c.ran || (Awaits(c, n, r, x, app) && r in keys))
    ensures Ran(n, app, Unknown) in RowsAnswered(c, keys).ran
    decreases |keys|
  {
    if keys != [] {
      RowAnsweredKeeps(c, keys[0]);
      if Awaits(c, n, r, x, app) { RowIsAnswered(c, n, r, x, app); }
      assert keys == [keys[0]] + keys[1..];
      RowsAreAnswered(RowAnswered(c, keys[0]), keys[1..], n, r, x, app);
    }
  }

  // What one operation does to a waiting callback: a timeout runs it with Unknown, a usable answer of its
  // receiver with that answer, a removal or the destruction with Unknown; a cancellation or an unusable answer
  // leaves it unrun; and under any other operation it goes on waiting.
  lemma RequestFollowed(c: State, e: Operation, n: nat, r: Id, x: nat, app: Id)
    requires Inv(c) && Awaits(c, n, r, x, app)
    ensures var d := Next(c, e);
            if e == Cancel(x) then d.ran == c.ran && WasDropped(d, n)
            else if e == TimeOut(x) then d.ran == c.ran + [Ran(n, app, Unknown)]
            else if e.Respond? && e.requestId == x && FirstWith(c.sockets, e.socket) == Some(r) then
              if e.usable.Some? then d.ran == c.ran + [Ran(n, app, e.usable.value)]
              else d.ran == c.ran && WasDropped(d, n)
            else if e == Remove(r) || e == Destroy then Ran(n, app, Unknown) in d.ran
            else Awaits(d, n, r, x, app)
  {
    var i := AwaitsPlace(c, n, r, x, app);
    NextKeeps(c, e);
    match e
    case Ask(s, _) => assert s == r ==> forall q :: q in c.pending[r] ==> q in Next(c, e).pending[r];
    case Cancel(y) =>
      if y == x { OwnIsSettled(c, None, n, r, x, app); } else { SettledElsewhere(c, y, None, n, r, x, app); }
    case TimeOut(y) =>
      if y == x { OwnIsSettled(c, Some(Unknown), n, r, x, app); }
      else { SettledElsewhere(c, y, Some(Unknown), n, r, x, app); }
    case Respond(socket, y, usable) =>
      var s := FirstWith(c.sockets, socket);
      if s == Some(r) && y == x { OwnIsSettled(c, usable, n, r, x, app); }
      else if s.Some? { OthersStillAwait(c, s.value, y, usable, n, r, x, app); }
    case AddOrUpdate(_, _) =>
    case Remove(_) => RowIsAnswered(c, n, r, x, app);
    case Destroy =>
      SortedElements(c.pending.Keys);
      RowsAreAnswered(c, Sorted(c.pending.Keys), n, r, x, app);
    case OthersAsk(_) =>
  }

  lemma SettledElsewhere(c: State, y: nat, verdict: Option<Verdict>, n: nat, r: Id, x: nat, app: Id)
    requires Inv(c) && Awaits(c, n, r, x, app) && y != x
    ensures Awaits(SettledAnywhere(c, y, verdict), n, r, x, app)
  {
    if y in c.owner { OthersStillAwait(c, c.owner[y], y, verdict, n, r, x, app); }
  }

  // ---------- Every run

  const START := State(map[], map[], 0, [], map[], [])

  ghost predicate IsRun(states: seq<State>, operations: seq<Operation>) {
    && |states| == |operations| + 1 && states[0] == START
    && forall i :: 0 <= i < |operations| ==> states[i + 1] == Next(states[i], operations[i])
  }

  ghost predicate LostBefore(states: seq<State>, operations: seq<Operation>, m: nat, n: nat)
    requires m <= |operations| < |states|
  {
    exists k :: 0 <= k < m && Loses(states[k], operations[k], n)
  }

  // In every run the laws hold, and a callback counts as dropped exactly if its request was lost.
  lemma {:induction false} EveryRunAccounts(states: seq<State>, operations: seq<Operation>, m: nat)
    requires IsRun(states, operations) && m < |states|
    ensures Inv(states[m])
    ensures forall n: nat :: WasDropped(states[m], n) <==> LostBefore(states, operations, m, n)
  {
    if m > 0 {
      var k := m - 1;
      EveryRunAccounts(states, operations, k);
      assert states[k + 1] == Next(states[k], operations[k]);
      NextKeeps(states[k], operations[k]);
      forall n: nat ensures WasDropped(states[m], n) <==> LostBefore(states, operations, m, n) {
        assert WasDropped(states[k], n) <==> LostBefore(states, operations, k, n);
      }
    }
  }

  // Once nothing is pending, every callback passed in has run, and exactly once, if and only if its request
  // was neither cancelled nor answered with nothing usable by the receiver it was for.
  lemma ExactlyOnceUnlessLost(states: seq<State>, operations: seq<Operation>, m: nat, n: nat)
    requires IsRun(states, operations) && m < |states| && n < |states[m].fates|
    requires forall r :: r in states[m].pending ==> states[m].pending[r] == []
    ensures HasRun(states[m].ran, n) <==> !LostBefore(states, operations, m, n)
    ensures forall i, j :: 0 <= i < j < |states[m].ran| ==> states[m].ran[i].callback != states[m].ran[j].callback
  {
    EveryRunAccounts(states, operations, m);
    assert WasDropped(states[m], n) <==> LostBefore(states, operations, m, n);
    assert Accounted(states[m], n);
    OneFate(states[m], n);
  }

  // Nothing is pending once the client is destroyed.
  lemma NothingPendingAfterwards(c: State)
    requires Inv(c)
    ensures Next(c, Destroy).pending == map[]
  {
    RowsAnsweredKeeps(c, Sorted(c.pending.Keys));
    SortedElements(c.pending.Keys);
  }

  lemma OnlyHolder(r: Id, socket: int)
    ensures FirstWith(map[r := socket], socket) == Some(r)
  {
    var sockets := map[r := socket];
    var holders := set x | x in sockets && sockets[x] == socket;
    assert r in holders;
    assert Least(holders) in holders;
  }

  // A request cancelled, and one answered with nothing usable: neither callback ever runs.
  lemma CallbackNeverRuns(r: Id, app: Id, socket: int)
    ensures var asked := Next(Next(START, AddOrUpdate(r, socket)), Ask(r, app));
            && |asked.fates| == 1 && asked.ran == []
            && Destroyed(Next(asked, Cancel(0))).ran == []
            && Destroyed(Next(asked, Respond(socket, 0, None))).ran == []
  {
    var asked := Next(Next(START, AddOrUpdate(r, socket)), Ask(r, app));
    assert asked.sockets == map[r := socket] && asked.pending[r] == [Request(0, app, 0)];
    var lost := Settled(asked, r, 0, None);
    assert lost.pending == map[r := []];
    OnlyHolder(r, socket);
    assert Next(asked, Cancel(0)) == lost == Next(asked, Respond(socket, 0, None));
    assert Sorted({r}) == [r] + Sorted({r} - {r}) && {r} - {r} == {};
    assert lost.pending.Keys == {r};
    assert RowsAnswered(lost, [r]) == RowsAnswered(RowAnswered(lost, r), []);
  }

  // ---------- Finding requests and receivers

  method FindRequest(requests: seq<Request>, requestId: nat) returns (i: nat)
    ensures i <= |requests| && (i < |requests| ==> requests[i].requestId == requestId)
    ensures forall j :: 0 <= j < i ==> requests[j].requestId != requestId
    ensures i == IndexOf(requests, requestId)
  {
    i := 0;
    while i < |requests| && requests[i].requestId != requestId
      invariant i <= |requests|
      invariant forall j :: 0 <= j < i ==> requests[j].requestId != requestId
    {
      i := i + 1;
    }
  }

  // The first place where the request id is pending, in the order of receiver ids.
  method FindPlace(pending: map<Id, seq<Request>>, requestId: nat) returns (found: bool, r: Id, i: nat)
    ensures found ==> PlaceOf(pending, requestId, r, i)
    ensures !found ==> forall s, j :: !PlaceOf(pending, requestId, s, j)
  {
    var keys := Sorted(pending.Keys);
    SortedElements(pending.Keys);
    for k := 0 to |keys|
      invariant forall s, j :: s in keys[..k] ==> !PlaceOf(pending, requestId, s, j)
    {
      r := keys[k];
      assert r in keys && keys[..k + 1] == keys[..k] + [r];
      i := FindRequest(pending[r], requestId);
      if i < |pending[r]| {
        return true, r, i;
      }
    }
    assert keys[..|keys|] == keys;
    found, r, i := false, "", 0;
  }

  lemma NoPlace(c: State, requestId: nat, verdict: Option<Verdict>)
    requires forall r, i :: !PlaceOf(c.pending, requestId, r, i)
    ensures SettledAnywhere(c, requestId, verdict) == c
  {
    if requestId in c.owner {
      var r := c.owner[requestId];
      assert !PlaceOf(c.pending, requestId, r, IndexOf(At(c.pending, r), requestId));
    }
  }

  lemma LeastHolder(sockets: map<Id, int>, socket: int, r: Id)
    requires r in sockets && sockets[r] == socket && forall s :: s in sockets && sockets[s] == socket ==> AtMost(r, s)
    ensures FirstWith(sockets, socket) == Some(r)
  {
    var holders := set s | s in sockets && sockets[s] == socket;
    assert r in holders;
    LeastUnique(holders, r);
  }

  // The first receiver, in order, with the given socket.
  method FindSocket(sockets: map<Id, int>, socket: int) returns (r: Option<Id>)
    ensures r == FirstWith(sockets, socket)
  {
    var keys := Sorted(sockets.Keys);
    SortedElements(sockets.Keys);
    assert forall m :: 0 <= m < |keys| ==> keys[m] in sockets;
    for k := 0 to |keys|
      invariant forall m :: 0 <= m < k ==> sockets[keys[m]] != socket
    {
      if sockets[keys[k]] == socket {
        forall s | s in sockets && sockets[s] == socket ensures AtMost(keys[k], s) {
          var j :| 0 <= j < |keys| && keys[j] == s;
          if k < j { SortedInOrder(sockets.Keys, k, j); } else { Total(s, s); }
        }
        LeastHolder(sockets, socket, keys[k]);
        return Some(keys[k]);
      }
    }
    assert forall s :: s in sockets ==> sockets[s] != socket;
    return None;
  }

  // ---------- The class

  class Client {
    var sockets: map<Id, int>
    var pending: map<Id, seq<Request>>
    var nextRequestId: nat
    var calls: nat
    ghost var ran: seq<Ran>
    ghost var owner: map<nat, Id>
    ghost var fates: seq<Fate>

    ghost function Snapshot(): State
      reads this
    {
      State(sockets, pending, nextRequestId, ran, owner, fates)
    }

    ghost predicate Valid()
      reads this
    {
      Inv(Snapshot()) && calls == |fates|
    }

    constructor ()
      ensures Valid() && Snapshot() == START
    {
      sockets, pending, nextRequestId, calls := map[], map[], 0, 0;
      ran, owner, fates := [], map[], [];
    }

    method RequestAppAvailability(receiver: Id, app: Id) returns (requestId: Option<nat>)
      requires Valid()
      modifies this
      ensures Valid() && Snapshot() == Next(old(Snapshot()), Ask(receiver, app))
      ensures requestId == if receiver in old(sockets) then Some(old(nextRequestId)) else None
    {
      EnqueuedKeeps(Snapshot(), receiver, app);
      AnsweredAtOnceKeeps(Snapshot(), app);
      var callback := calls;
      calls := calls + 1;
      if receiver !in sockets {
        ran, fates := ran + [Ran(callback, app, Unknown)], fates + [Answered];
        return None;
      }
      requestId := Some(nextRequestId);
      nextRequestId := nextRequestId + 1;
      pending := pending[receiver := At(pending, receiver) + [Request(requestId.value, app, callback)]];
      owner, fates := owner[requestId.value := receiver], fates + [Waiting(receiver)];
    }

    // The counter is shared by all clients.
    method OtherClientsAsk(ids: nat)
      requires Valid()
      modifies this`nextRequestId
      ensures Valid() && Snapshot() == Next(old(Snapshot()), OthersAsk(ids))
    {
      CounterKeeps(Snapshot(), ids);
      nextRequestId := nextRequestId + ids;
    }

    method AddOrUpdateReceiver(receiver: Id, socket: int)
      requires Valid()
      modifies this`sockets
      ensures Valid() && Snapshot() == Next(old(Snapshot()), AddOrUpdate(receiver, socket))
    {
      SocketsKeep(Snapshot(), sockets[receiver := socket]);
      sockets := sockets[receiver := socket];
    }

    // Everything pending for the receiver is answered with Unknown, in order, and forgotten.
    method RemoveReceiver(receiver: Id)
      requires Valid()
      modifies this`sockets, this`pending, this`ran, this`fates
      ensures Valid() && Snapshot() == Next(old(Snapshot()), Remove(receiver))
    {
      if receiver in pending {
        AnswerAndForget(receiver);
      } else {
        NothingToAnswer(Snapshot(), receiver);
      }
      SocketsKeep(Snapshot(), sockets - {receiver});
      sockets := sockets - {receiver};
    }

    method AnswerAndForget(receiver: Id)
      requires Valid() && receiver in pending
      modifies this`pending, this`ran, this`fates
      ensures Valid() && Snapshot() == RowAnswered(old(Snapshot()), receiver)
    {
      RowAnsweredKeeps(Snapshot(), receiver);
      RunAllUnknown(pending[receiver]);
      fates := NoLongerWaiting(fates, receiver);
      pending := pending - {receiver};
    }

    method RunAllUnknown(requests: seq<Request>)
      modifies this`ran
      ensures ran == old(ran) + AllUnknown(requests)
    {
      for i := 0 to |requests|
        invariant ran == old(ran) + AllUnknown(requests)[..i]
      {
        ran := ran + [Ran(requests[i].callback, requests[i].appId, Unknown)];
      }
    }

    // Runs the callback in the given place with the verdict, if there is one, and erases the request.
    method SettleRequest(r: Id, i: nat, verdict: Option<Verdict>)
      requires Valid() && r in pending && i < |pending[r]|
      modifies this`pending, this`ran, this`fates
      ensures old(pending)[r][i].callback < |old(fates)|
      ensures Valid() && Snapshot() == Settled(old(Snapshot()), r, i, verdict)
      ensures forall s, j :: !PlaceOf(pending, old(pending)[r][i].requestId, s, j)
    {
      SettledKeeps(Snapshot(), r, i, verdict);
      var q := pending[r][i];
      if verdict.Some? {
        ran, fates := ran + [Ran(q.callback, q.appId, verdict.value)], fates[q.callback := Answered];
      } else {
        fates := fates[q.callback := Dropped];
      }
      pending := pending[r := Without(pending[r], i)];
    }

    // Erases the request without an answer.
    method CancelRequest(requestId: nat)
      requires Valid()
      modifies this`pending, this`ran, this`fates
      ensures Valid() && Snapshot() == Next(old(Snapshot()), Cancel(requestId))
    {
      var found, r, i := FindPlace(pending, requestId);
      if found {
        PlaceIs(Snapshot(), requestId, r, i);
        SettleRequest(r, i, None);
      } else {
        NoPlace(Snapshot(), requestId, None);
      }
    }

    // Settles the receiver's own request with the id, if there is one.
    method SettleOwn(receiver: Id, requestId: nat, verdict: Option<Verdict>) returns (found: bool)
      requires Valid() && receiver in pending
      modifies this`pending, this`ran, this`fates
      ensures Valid() && pending.Keys == old(pending).Keys
      ensures found <==> exists i :: PlaceOf(old(pending), requestId, receiver, i)
      ensures found ==> Snapshot() == SettledAnywhere(old(Snapshot()), requestId, verdict)
      ensures found ==> forall s, j :: !PlaceOf(pending, requestId, s, j)
      ensures !found ==> Snapshot() == old(Snapshot())
      ensures Snapshot() == SettledFor(old(Snapshot()), receiver, requestId, verdict)
    {
      var i := FindRequest(pending[receiver], requestId);
      found := i < |pending[receiver]|;
      if found {
        assert PlaceOf(pending, requestId, receiver, i);
        PlaceIs(Snapshot(), requestId, receiver, i);
        SettleRequest(receiver, i, verdict);
      }
    }

    // An answer from a receiver about one of its own requests. `usable` is None when the answer
    // carries no availability string for the app.
    method HandleResponse(receiver: Id, requestId: nat, usable: Option<Verdict>)
      requires Valid()
      modifies this`pending, this`ran, this`fates
      ensures Valid() && Snapshot() == SettledFor(old(Snapshot()), receiver, requestId, usable)
    {
      if receiver !in pending {
        return;
      }
      var _ := SettleOwn(receiver, requestId, usable);
    }

    // A message on a socket is for the first receiver, in order, that has it.
    method OnMessage(socket: int, requestId: nat, usable: Option<Verdict>)
      requires Valid()
      modifies this`pending, this`ran, this`fates
      ensures Valid() && Snapshot() == Next(old(Snapshot()), Respond(socket, requestId, usable))
    {
      var receiver := FindSocket(sockets, socket);
      if receiver.Some? {
        HandleResponse(receiver.value, requestId, usable);
      }
    }

    // The request timed out. The loop does not stop at a match, but there is only one.
    method CancelAppAvailabilityRequest(requestId: nat)
      requires Valid()
      modifies this`pending, this`ran, this`fates
      ensures Valid() && Snapshot() == Next(old(Snapshot()), TimeOut(requestId))
    {
      var keys := Sorted(pending.Keys);
      SortedElements(pending.Keys);
      ghost var done := false;
      for k := 0 to |keys|
        invariant Valid() && pending.Keys == old(pending).Keys
        invariant !done ==> Snapshot() == old(Snapshot())
        invariant !done ==> forall s, j :: s in keys[..k] ==> !PlaceOf(pending, requestId, s, j)
        invariant done ==> Snapshot() == SettledAnywhere(old(Snapshot()), requestId, Some(Unknown))
        invariant done ==> forall s, j :: !PlaceOf(pending, requestId, s, j)
      {
        var r := keys[k];
        assert r in keys && keys[..k + 1] == keys[..k] + [r];
        var found := SettleOwn(r, requestId, Some(Unknown));
        done := done || found;
      }
      assert keys[..|keys|] == keys;
      if !done { NoPlace(Snapshot(), requestId, Some(Unknown)); }
    }

    // Destruction answers everything still pending: from then on every callback has run or was dropped.
    method Destroy()
      requires Valid()
      modifies this`pending, this`ran, this`fates
      ensures Valid() && Snapshot() == Next(old(Snapshot()), Operation.Destroy)
      ensures pending == map[]
      ensures forall n :: 0 <= n < |fates| ==> (HasRun(ran, n) <==> !fates[n].Dropped?)
    {
      NothingPendingAfterwards(Snapshot());
      var keys := Sorted(pending.Keys);
      for k := 0 to |keys|
        invariant Valid()
        invariant RowsAnswered(Snapshot(), keys[k..]) == Destroyed(old(Snapshot()))
      {
        assert keys[k..][0] == keys[k] && keys[k..][1..] == keys[k + 1..];
        if keys[k] in pending {
          AnswerAndForget(keys[k]);
        } else {
          NothingToAnswer(Snapshot(), keys[k]);
        }
      }
      forall n | 0 <= n < |fates| ensures HasRun(ran, n) <==> !fates[n].Dropped? {
        OneFate(Snapshot(), n);
      }
    }
  }
}
