/**
 * The notification routes: the paged, newest-first list with its counts,
 * marking one or all notifications read, and the cleanup of old read ones.
 */
module NotificationRoutes {
  import opened Wrappers
  import opened MachineModel
  import opened NotificationModel
  import opened Database

  /** The notifications satisfying `p`, in their stored order. */
  function KeepWhere(ns: seq<Notification>, p: Notification -> bool): (r: seq<Notification>)
    ensures |r| <= |ns|
    ensures forall i :: 0 <= i < |r| ==> p(r[i]) && r[i] in ns
    ensures forall i :: 0 <= i < |ns| && p(ns[i]) ==> ns[i] in r
  {
    if ns == [] then []
    else (if p(ns[0]) then [ns[0]] else []) + KeepWhere(ns[1..], p)
  }

  /** Keeping `p` and keeping its negation split the sequence: the two sizes add up. */
  lemma {:induction false} KeepWhereSplits(ns: seq<Notification>, p: Notification -> bool)
    ensures |KeepWhere(ns, p)| + |KeepWhere(ns, n => !p(n))| == |ns|
  {
    if ns != [] {
      KeepWhereSplits(ns[1..], p);
    }
  }

  lemma IdsFreshTail(ns: seq<Notification>, nextId: nat)
    requires IdsFresh(ns, nextId) && ns != []
    ensures IdsFresh(ns[1..], nextId)
    ensures forall k :: 0 <= k < |ns| - 1 ==> ns[1..][k].id != ns[0].id
  {
    var tail := ns[1..];
    forall i, j | 0 <= i < j < |tail| ensures tail[i].id != tail[j].id {
      assert tail[i] == ns[i + 1] && tail[j] == ns[j + 1];
    }
    forall k | 0 <= k < |tail| ensures tail[k].id < nextId && tail[k].id != ns[0].id {
      assert tail[k] == ns[k + 1];
    }
  }

  lemma IdsFreshCons(x: Notification, rest: seq<Notification>, nextId: nat)
    requires IdsFresh(rest, nextId) && x.id < nextId
    requires forall j :: 0 <= j < |rest| ==> rest[j].id != x.id
    ensures IdsFresh([x] + rest, nextId)
  {
    var r := [x] + rest;
    forall i, j | 0 <= i < j < |r| ensures r[i].id != r[j].id {
      assert r[j] == rest[j - 1];
      if i > 0 {
        assert r[i] == rest[i - 1];
      }
    }
    forall i | 0 <= i < |r| ensures r[i].id < nextId {
      if i > 0 {
        assert r[i] == rest[i - 1];
      }
    }
  }

  /** Filtering keeps distinct ids distinct and every id below the bound. */
  lemma {:induction false} KeepWhereKeepsIdsFresh(ns: seq<Notification>, p: Notification -> bool, nextId: nat)
    requires IdsFresh(ns, nextId)
    ensures IdsFresh(KeepWhere(ns, p), nextId)
  {
    if ns != [] {
      var tail := ns[1..];
      IdsFreshTail(ns, nextId);
      KeepWhereKeepsIdsFresh(tail, p, nextId);
      var rest := KeepWhere(tail, p);
      if p(ns[0]) {
        forall j | 0 <= j < |rest| ensures rest[j].id != ns[0].id {
          assert rest[j] in tail;
          var k :| 0 <= k < |tail| && tail[k] == rest[j];
        }
        IdsFreshCons(ns[0], rest, nextId);
        assert KeepWhere(ns, p) == [ns[0]] + rest;
      } else {
        assert KeepWhere(ns, p) == rest;
      }
    }
  }

  /** Nothing satisfies `p`: nothing is kept. */
  lemma {:induction false} KeepWhereNone(ns: seq<Notification>, p: Notification -> bool)
    requires forall i :: 0 <= i < |ns| ==> !p(ns[i])
    ensures KeepWhere(ns, p) == []
  {
    if ns != [] {
      assert forall i :: 0 <= i < |ns| - 1 ==> ns[1..][i] == ns[i + 1];
      KeepWhereNone(ns[1..], p);
    }
  }

  predicate Unread(n: Notification) {
    !n.read
  }

  /** Nothing is kept exactly when nothing satisfies `p`. */
  lemma KeepWhereEmptyIff(ns: seq<Notification>, p: Notification -> bool)
    ensures KeepWhere(ns, p) == [] <==> forall i :: 0 <= i < |ns| ==> !p(ns[i])
  {
    if forall i :: 0 <= i < |ns| ==> !p(ns[i]) {
      KeepWhereNone(ns, p);
    }
  }

  /** `countDocuments({ read: false })` */
  function UnreadCount(ns: seq<Notification>): (c: nat)
    ensures c <= |ns|
    ensures c == 0 <==> forall i :: 0 <= i < |ns| ==> ns[i].read
  {
    KeepWhereEmptyIff(ns, Unread);
    |KeepWhere(ns, Unread)|
  }

  predicate NewerOrSame(a: Notification, b: Notification) {
    a.createdAt >= b.createdAt
  }

  /** `sort({ createdAt: -1 })`: newest first. */
  predicate NewestFirstOrder(s: seq<Notification>) {
    forall i, j :: 0 <= i < j < |s| ==> NewerOrSame(s[i], s[j])
  }

  /** A record at least as new as every record of a newest-first sequence can go in front of it. */
  lemma NewestFirstCons(y: Notification, s: seq<Notification>)
    requires NewestFirstOrder(s)
    requires forall k :: 0 <= k < |s| ==> NewerOrSame(y, s[k])
    ensures NewestFirstOrder([y] + s)
  {
    forall i, j | 0 <= i < j < |[y] + s| ensures NewerOrSame(([y] + s)[i], ([y] + s)[j]) {
      assert ([y] + s)[j] == s[j - 1];
      if i > 0 {
        assert ([y] + s)[i] == s[i - 1];
      }
    }
  }

  lemma NewestFirstTail(s: seq<Notification>)
    requires s != [] && NewestFirstOrder(s)
    ensures NewestFirstOrder(s[1..])
    ensures forall k :: 0 <= k < |s[1..]| ==> NewerOrSame(s[0], s[1..][k])
  {
    forall i, j | 0 <= i < j < |s[1..]| ensures NewerOrSame(s[1..][i], s[1..][j]) {
      assert s[1..][i] == s[i + 1] && s[1..][j] == s[j + 1];
    }
    forall k | 0 <= k < |s[1..]| ensures NewerOrSame(s[0], s[1..][k]) {
      assert s[1..][k] == s[k + 1];
    }
  }

  /** A bound on every record's age carries over to any reordering with one more record that also meets it. */
  lemma BoundCarriesOver(y: Notification, x: Notification, t: seq<Notification>, r: seq<Notification>)
    requires forall k :: 0 <= k < |t| ==> NewerOrSame(y, t[k])
    requires NewerOrSame(y, x)
    requires multiset(r) == multiset(t) + multiset{x}
    ensures forall k :: 0 <= k < |r| ==> NewerOrSame(y, r[k])
  {
    forall k | 0 <= k < |r| ensures NewerOrSame(y, r[k]) {
      assert r[k] in multiset(r);
      if r[k] != x {
        assert r[k] in multiset(t);
        var m :| 0 <= m < |t| && t[m] == r[k];
      }
    }
  }

  /** Insert `x` into a newest-first sequence, before the first strictly older record. */
  function Insert(x: Notification, s: seq<Notification>): (r: seq<Notification>)
    requires NewestFirstOrder(s)
    ensures NewestFirstOrder(r)
    ensures multiset(r) == multiset(s) + multiset{x}
  {
    if s == [] || x.createdAt >= s[0].createdAt then
      NewestFirstCons(x, s);
      [x] + s
    else
      NewestFirstTail(s);
      var rest := Insert(x, s[1..]);
      assert s == [s[0]] + s[1..];
      BoundCarriesOver(s[0], x, s[1..], rest);
      NewestFirstCons(s[0], rest);
      [s[0]] + rest
  }

  /** The query result in newest-first order: a reordering of the records, nothing added or lost. */
  function NewestFirst(ns: seq<Notification>): (r: seq<Notification>)
    ensures NewestFirstOrder(r)
    ensures multiset(r) == multiset(ns)
    ensures |r| == |ns|
  {
    if ns == [] then []
    else
      assert ns == [ns[0]] + ns[1..];
      Insert(ns[0], NewestFirst(ns[1..]))
  }

  /** `limit(n)` as the database reads it: 0 is no limit, a negative n means |n|. */
  function Cap(limit: int, available: nat): (c: nat)
    ensures c <= available
    ensures limit == 0 ==> c == available
    ensures limit > 0 ==> c == if limit < available then limit else available
    ensures limit < 0 ==> c == if -limit < available then -limit else available
  {
    if limit == 0 then available
    else
      var l := if limit < 0 then -limit else limit;
      if l < available then l else available
  }

  /** `skip(skip).limit(limit)` on a sorted result. */
  function Window(s: seq<Notification>, skip: nat, limit: int): (r: seq<Notification>)
    ensures skip >= |s| ==> r == []
    ensures skip < |s| ==> |r| == Cap(limit, |s| - skip)
    ensures forall i :: 0 <= i < |r| ==> skip + i < |s| && r[i] == s[skip + i]
  {
    if skip >= |s| then [] else s[skip..][..Cap(limit, |s| - skip)]
  }

  /**
   * `Math.ceil(total / limit)`, None where it is not a finite number (limit 0).
   * For a negative limit the quotient is negative and rounds toward zero.
   */
  function TotalPages(total: nat, limit: int): (r: Option<int>)
    ensures limit == 0 <==> r.None?
    ensures limit > 0 ==> r.Some? && r.value >= 0 && r.value * limit >= total && (r.value - 1) * limit < total
    ensures limit < 0 ==> r.Some? && r.value <= 0
  {
    if limit == 0 then None
    else if limit > 0 then Some((total + limit - 1) / limit)
    else Some(-(total / -limit))
  }

  datatype Listing = Listing(
    notifications: seq<Notification>,
    total: nat,
    unreadCount: nat,
    page: int,
    totalPages: Option<int>)

  /** A destructuring default `{ x = d } = req.query`: an absent parameter takes `d`. */
  function OrDefault(o: Option<int>, d: int): (v: int)
    ensures o.None? ==> v == d
    ensures o.Some? ==> v == o.value
  {
    if o.Some? then o.value else d
  }

  const DefaultPage: int := 1
  const DefaultLimit: int := 20

  /**
   * GET `/`: filter (unread only when asked), sort newest first, skip `(page - 1) * limit`
   * and return at most the limit; an absent page is 1 and an absent limit 20, and a
   * negative skip is refused by the database.
   */
  function List(ns: seq<Notification>, page: Option<int>, limit: Option<int>, unreadOnly: bool): (r: Result<Listing, string>)
    ensures var pg := OrDefault(page, DefaultPage); var lim := OrDefault(limit, DefaultLimit);
            r.Failure? <==> (pg - 1) * lim < 0
    ensures r.Success? ==>
      var query := if unreadOnly then KeepWhere(ns, Unread) else ns;
      var pg := OrDefault(page, DefaultPage);
      var lim := OrDefault(limit, DefaultLimit);
      && r.value.total == |query|
      && r.value.unreadCount == UnreadCount(ns)
      && r.value.page == pg
      && r.value.totalPages == TotalPages(|query|, lim)
      && r.value.notifications == Window(NewestFirst(query), (pg - 1) * lim, lim)
  {
    var query := if unreadOnly then KeepWhere(ns, Unread) else ns;
    var pg := OrDefault(page, DefaultPage);
    var lim := OrDefault(limit, DefaultLimit);
    var skip := (pg - 1) * lim;
    if skip < 0 then Failure("skip must be non-negative")
    else Success(Listing(Window(NewestFirst(query), skip, lim), |query|, UnreadCount(ns), pg, TotalPages(|query|, lim)))
  }

  /** A request without `page` and `limit` lists the twenty newest records, page 1 of `ceil(total / 20)`. */
  lemma DefaultListIsNewestTwenty(ns: seq<Notification>, unreadOnly: bool)
    ensures var query := if unreadOnly then KeepWhere(ns, Unread) else ns;
            var r := List(ns, None, None, unreadOnly);
            && r.Success? && r.value.page == 1
            && r.value.notifications == NewestFirst(query)[..if |query| < 20 then |query| else 20]
            && r.value.totalPages == Some((|query| + 19) / 20)
  {
  }

  /** Every listed record is among the queried ones, listed newest first. */
  lemma ListIsNewestFirstSlice(ns: seq<Notification>, page: Option<int>, limit: Option<int>, unreadOnly: bool)
    requires List(ns, page, limit, unreadOnly).Success?
    ensures var l := List(ns, page, limit, unreadOnly).value;
            var lim := OrDefault(limit, DefaultLimit);
            NewestFirstOrder(l.notifications)
            && (forall i :: 0 <= i < |l.notifications| ==> l.notifications[i] in ns)
            && (unreadOnly ==> forall i :: 0 <= i < |l.notifications| ==> !l.notifications[i].read)
            && (lim != 0 ==> |l.notifications| <= if lim < 0 then -lim else lim)
  {
    var query := if unreadOnly then KeepWhere(ns, Unread) else ns;
    var sorted := NewestFirst(query);
    var skip := (OrDefault(page, DefaultPage) - 1) * OrDefault(limit, DefaultLimit);
    var w := Window(sorted, skip, OrDefault(limit, DefaultLimit));
    forall i | 0 <= i < |w| ensures w[i] in query {
      assert w[i] in multiset(sorted);
    }
  }

  /** With a positive limit, a page holds records exactly when its number is at most `totalPages`. */
  lemma PageNonEmptyIffWithinTotalPages(s: seq<Notification>, page: int, limit: int)
    requires limit > 0 && page >= 1
    ensures |Window(s, (page - 1) * limit, limit)| > 0 <==> page <= TotalPages(|s|, limit).value
  {
    var t := |s|;
    var c := TotalPages(t, limit).value;
    if page <= c {
      assert (page - 1) * limit <= (c - 1) * limit by {
        MulMonotone(page - 1, c - 1, limit);
      }
    } else {
      assert (page - 1) * limit >= c * limit by {
        MulMonotone(c, page - 1, limit);
      }
    }
  }

  lemma MulMonotone(a: int, b: int, k: nat)
    requires a <= b
    ensures a * k <= b * k
  {
    assert b * k - a * k == (b - a) * k;
  }

  /** A notification with the given id, marked read at `now`. */
  function MarkedRead(n: Notification, now: nat): (r: Notification)
    ensures r.read && r.readAt == Some(now)
    ensures r.id == n.id && r.kind == n.kind && r.title == n.title && r.message == n.message
    ensures r.machineId == n.machineId && r.orderCode == n.orderCode && r.data == n.data && r.createdAt == n.createdAt
  {
    n.(read := true, readAt := Some(now))
  }

  /** The position of the record with id `id`, if any. */
  function IndexOf(ns: seq<Notification>, id: nat): (r: Option<nat>)
    ensures r.Some? ==> r.value < |ns| && ns[r.value].id == id
    ensures r.None? <==> forall i :: 0 <= i < |ns| ==> ns[i].id != id
  {
    if ns == [] then None
    else if ns[0].id == id then Some(0)
    else
      var rest := IndexOf(ns[1..], id);
      assert forall i :: 1 <= i < |ns| ==> ns[i] == ns[1..][i - 1];
      if rest.Some? then Some(rest.value + 1) else None
  }

  /** PATCH `/:id/read`: the record with that id, and only it, becomes read at `now`; 404 when there is none. */
  method MarkRead(st: Store, id: nat, now: nat) returns (reply: Reply)
    requires st.Valid()
    modifies st
    ensures st.Valid()
    ensures reply == Ok || reply == NotFound
    ensures reply == NotFound <==> forall i :: 0 <= i < |old(st.notifications)| ==> old(st.notifications)[i].id != id
    ensures reply == NotFound ==> unchanged(st)
    ensures |st.notifications| == |old(st.notifications)|
    ensures forall i :: 0 <= i < |st.notifications| ==>
              st.notifications[i] == if old(st.notifications)[i].id == id then MarkedRead(old(st.notifications)[i], now)
                                     else old(st.notifications)[i]
    ensures st.machines == old(st.machines) && st.orders == old(st.orders) && st.outbox == old(st.outbox)
    ensures st.events == old(st.events) && st.commands == old(st.commands)
    ensures st.nextNotificationId == old(st.nextNotificationId)
  {
    var k := IndexOf(st.notifications, id);
    if k.None? {
      return NotFound;
    }
    var ns := st.notifications;
    var i := k.value;
    assert forall j :: 0 <= j < |ns| && j != i ==> ns[j].id != id;
    st.notifications := ns[i := MarkedRead(ns[i], now)];
    reply := Ok;
  }

  /** `updateMany({ read: false }, { read: true, readAt })`: unread records become read; read ones keep their `readAt`. */
  function ReadAllOf(ns: seq<Notification>, now: nat): (r: seq<Notification>)
    ensures |r| == |ns|
    ensures forall i :: 0 <= i < |ns| ==> r[i] == if ns[i].read then ns[i] else MarkedRead(ns[i], now)
  {
    seq(|ns|, i requires 0 <= i < |ns| => if ns[i].read then ns[i] else MarkedRead(ns[i], now))
  }

  /** After read-all nothing is unread. */
  lemma {:induction false} ReadAllLeavesNoneUnread(ns: seq<Notification>, now: nat)
    ensures UnreadCount(ReadAllOf(ns, now)) == 0
  {
    var r := ReadAllOf(ns, now);
    assert forall i :: 0 <= i < |r| ==> !Unread(r[i]);
    KeepWhereNone(r, Unread);
  }

  /** PATCH `/read-all`. */
  method ReadAll(st: Store, now: nat) returns (reply: Reply)
    requires st.Valid()
    modifies st
    ensures st.Valid()
    ensures reply == Ok
    ensures st.notifications == ReadAllOf(old(st.notifications), now)
    ensures UnreadCount(st.notifications) == 0
    ensures st.machines == old(st.machines) && st.orders == old(st.orders) && st.outbox == old(st.outbox)
    ensures st.events == old(st.events) && st.commands == old(st.commands)
    ensures st.nextNotificationId == old(st.nextNotificationId)
  {
    ReadAllLeavesNoneUnread(st.notifications, now);
    st.notifications := ReadAllOf(st.notifications, now);
    reply := Ok;
  }

  /** `thirtyDaysAgo`: thirty days of milliseconds before `now` (daylight saving left out). */
  function Cutoff(now: nat): (t: int)
    ensures t < now && now - t == 2592000000
  {
    now - 30 * MsPerDay
  }

  /** What `deleteMany({ createdAt: { $lt: cutoff }, read: true })` removes. */
  predicate Expired(n: Notification, cutoff: int)
    ensures Expired(n, cutoff) ==> n.read
  {
    n.read && n.createdAt < cutoff
  }

  /** DELETE `/cleanup`: remove the read records older than thirty days and report how many went. */
  method Cleanup(st: Store, now: nat) returns (deleted: nat)
    requires st.Valid()
    modifies st
    ensures st.Valid()
    ensures st.notifications == KeepWhere(old(st.notifications), n => !Expired(n, Cutoff(now)))
    ensures deleted == |KeepWhere(old(st.notifications), n => Expired(n, Cutoff(now)))|
    ensures deleted == |old(st.notifications)| - |st.notifications|
    ensures forall i :: 0 <= i < |old(st.notifications)| && !old(st.notifications)[i].read ==> old(st.notifications)[i] in st.notifications
    ensures forall i :: 0 <= i < |st.notifications| ==> !Expired(st.notifications[i], Cutoff(now)) && st.notifications[i] in old(st.notifications)
    ensures UnreadCount(st.notifications) == UnreadCount(old(st.notifications))
    ensures st.machines == old(st.machines) && st.orders == old(st.orders) && st.outbox == old(st.outbox)
    ensures st.events == old(st.events) && st.commands == old(st.commands)
    ensures st.nextNotificationId == old(st.nextNotificationId)
  {
    var cutoff := Cutoff(now);
    var expired: Notification -> bool := n => Expired(n, cutoff);
    var keep: Notification -> bool := n => !Expired(n, cutoff);
    var ns := st.notifications;
    KeepWhereSplits(ns, expired);
    assert KeepWhere(ns, n => !expired(n)) == KeepWhere(ns, keep) by {
      KeepWhereSameFilter(ns, n => !expired(n), keep);
    }
    KeepWhereKeepsIdsFresh(ns, keep, st.nextNotificationId);
    UnreadSurviveCleanup(ns, cutoff);
    st.notifications := KeepWhere(ns, keep);
    deleted := |KeepWhere(ns, expired)|;
  }

  lemma {:induction false} KeepWhereSameFilter(ns: seq<Notification>, p: Notification -> bool, q: Notification -> bool)
    requires forall n :: p(n) == q(n)
    ensures KeepWhere(ns, p) == KeepWhere(ns, q)
  {
    if ns != [] {
      KeepWhereSameFilter(ns[1..], p, q);
    }
  }

  /** Filtering by `p` and then by a stronger `q` is filtering by `q`. */
  lemma {:induction false} KeepWhereNarrows(ns: seq<Notification>, p: Notification -> bool, q: Notification -> bool)
    requires forall n :: q(n) ==> p(n)
    ensures KeepWhere(KeepWhere(ns, p), q) == KeepWhere(ns, q)
  {
    if ns != [] {
      var tail := ns[1..];
      KeepWhereNarrows(tail, p, q);
      var rest := KeepWhere(tail, p);
      if p(ns[0]) {
        assert KeepWhere(ns, p) == [ns[0]] + rest;
        assert ([ns[0]] + rest)[1..] == rest;
      } else {
        assert KeepWhere(ns, p) == rest;
      }
    }
  }

  /** Cleanup never removes an unread record, so the unread count is what it was. */
  lemma UnreadSurviveCleanup(ns: seq<Notification>, cutoff: int)
    ensures KeepWhere(KeepWhere(ns, n => !Expired(n, cutoff)), Unread) == KeepWhere(ns, Unread)
  {
    KeepWhereNarrows(ns, n => !Expired(n, cutoff), Unread);
  }
}
