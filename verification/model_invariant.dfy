/** What every transaction of the model gateway keeps of its registry, and how the registry moves. */
module ModelInvariant {
  import opened Base
  import opened ModelRegistry

  predicate Closed(row: Row) {
    row.state.Committed? || row.state.Cancelled?
  }

  // ----- the invariant -----

  predicate RowFit(policy: Policy, key: Key, row: Row) {
    && row.fingerprint.subject == key.subject && row.fingerprint.session == row.session
    && row.fingerprint.expires == row.expires
    && row.readbacks <= policy.readbacks && (row.state.Committed? <==> row.answer.Some?)
    && (Closed(row) ==> row.until == 0)
    && (row.state.Prepared? ==> row.readbacks == 0)
  }

  ghost predicate RowsFit(policy: Policy, rows: map<Key, Row>) {
    forall k :: k in rows ==> RowFit(policy, k, rows[k])
  }

  ghost predicate QuotasHold(policy: Policy, rows: map<Key, Row>) {
    && |rows| <= policy.entries
    && (forall subject, day :: |OfDay(rows, subject, day)| <= policy.daily)
  }

  ghost predicate LogOrdered(events: seq<Event>, last: int) {
    && (forall i, j :: 0 <= i < j < |events| ==> events[i].at <= events[j].at)
    && (forall i :: 0 <= i < |events| ==> events[i].at <= last)
  }

  /** Every request a tombstone names is closed, and tombstones fit their table. */
  ghost predicate TombstonesFit(policy: Policy, rows: map<Key, Row>, sessions: set<Session>, cancellations: set<Key>) {
    && |sessions| + |cancellations| <= policy.entries
    && (forall k :: k in rows && (k in cancellations || Session(k.subject, rows[k].session) in sessions) ==>
      Closed(rows[k]))
  }

  /** How often the log records this. */
  function Count(events: seq<Event>, kind: Kind, about: Subject): nat {
    if events == [] then 0 else
    var last := events[|events| - 1];
    Count(events[..|events| - 1], kind, about) + (if last.kind == kind && last.about == about then 1 else 0)
  }

  predicate RowLogged(events: seq<Event>, request: RequestKey, rows: map<Key, Row>) {
    var known := request.key in rows && rows[request.key].fingerprint == request.fingerprint;
    && Count(events, DispatchReserved, ForRequest(request)) == (if known then 1 else 0)
    && Count(events, ReadbackReserved, ForRequest(request)) == (if known then rows[request.key].readbacks else 0)
    && Count(events, AnswerCommitted, ForRequest(request))
      == (if known && rows[request.key].state.Committed? then 1 else 0)
  }

  /** The log records each dispatch, readback, answer and denial as often as the tables say it happened. */
  ghost predicate LogAccounts(r: Registry) {
    && (forall request :: RowLogged(r.events, request, r.rows))
    && (forall s :: Count(r.events, SessionRevoked, ForSession(s)) == if s in r.sessions then 1 else 0)
    && (forall k :: Count(r.events, RequestCancelled, ForKey(k)) == if k in r.cancellations then 1 else 0)
    && Count(r.events, RegistrySuspended, ForNone) == (if r.suspended then 1 else 0)
  }

  ghost predicate Fit(policy: Policy, r: Registry) {
    && RowsFit(policy, r.rows)
    && QuotasHold(policy, r.rows)
    && LogOrdered(r.events, r.last)
    && TombstonesFit(policy, r.rows, r.sessions, r.cancellations)
    && LogAccounts(r)
  }

  // ----- how it moves -----

  /** Identity is fixed, a claim changes only against a unit of the readback budget, a closed row never changes. */
  ghost predicate RowForward(row: Row, row': Row) {
    && row'.fingerprint == row.fingerprint && row'.session == row.session && row'.day == row.day
    && row'.expires == row.expires
    && (row.readbacks < row'.readbacks || (row'.readbacks == row.readbacks && row'.claim == row.claim))
    && (Closed(row) ==> row' == row)
  }

  ghost predicate RowsForward(rows: map<Key, Row>, rows': map<Key, Row>) {
    forall k :: k in rows ==> k in rows' && RowForward(rows[k], rows'[k])
  }

  ghost predicate Forward(r: Registry, r': Registry) {
    && RowsForward(r.rows, r'.rows)
    && r.sessions <= r'.sessions && r.cancellations <= r'.cancellations && r.last <= r'.last
    && |r.events| <= |r'.events| && r'.events[..|r.events|] == r.events
    && (r.suspended ==> r'.suspended)
  }

  lemma ForwardTransitive(a: Registry, b: Registry, c: Registry)
    requires Forward(a, b) && Forward(b, c)
    ensures Forward(a, c)
  {
    assert c.events[..|a.events|] == b.events[..|a.events|];
  }

  lemma Resting(r: Registry)
    ensures Forward(r, r)
  {
  }

  // ----- parts -----

  lemma CountAppend(events: seq<Event>, e: Event, kind: Kind, about: Subject)
    ensures Count(events + [e], kind, about)
      == Count(events, kind, about) + (if e.kind == kind && e.about == about then 1 else 0)
  {
    assert (events + [e])[..|events|] == events;
  }

  lemma OrderAppend(events: seq<Event>, last: int, e: Event, last': int)
    requires LogOrdered(events, last) && last <= e.at <= last'
    ensures LogOrdered(events + [e], last')
  {
  }

  lemma QuotaInsert(policy: Policy, rows: map<Key, Row>, key: Key, row: Row)
    requires QuotasHold(policy, rows) && key !in rows && |rows| < policy.entries
    requires |OfDay(rows, key.subject, row.day)| < policy.daily
    ensures QuotasHold(policy, rows[key := row])
  {
    var rows' := rows[key := row];
    assert rows'.Keys == rows.Keys + {key};
    assert |rows'| == |rows'.Keys| && |rows| == |rows.Keys|;
    forall subject, day ensures |OfDay(rows', subject, day)| <= policy.daily {
      assert |OfDay(rows, subject, day)| <= policy.daily;
      OfDayInsert(rows, key, row, subject, day);
    }
    hide OfDay;
  }

  lemma OfDayInsert(rows: map<Key, Row>, key: Key, row: Row, subject: string, day: int)
    requires key !in rows
    ensures |OfDay(rows[key := row], subject, day)|
      == |OfDay(rows, subject, day)| + (if subject == key.subject && day == row.day then 1 else 0)
  {
    var own := subject == key.subject && day == row.day;
    assert OfDay(rows[key := row], subject, day) == OfDay(rows, subject, day) + if own then {key} else {};
  }

  lemma QuotaUpdate(policy: Policy, rows: map<Key, Row>, rows': map<Key, Row>)
    requires QuotasHold(policy, rows) && rows'.Keys == rows.Keys
      && forall k :: k in rows ==> rows'[k].day == rows[k].day
    ensures QuotasHold(policy, rows')
  {
    assert |rows'| == |rows'.Keys| && |rows| == |rows.Keys|;
    forall subject, day ensures |OfDay(rows', subject, day)| <= policy.daily {
      assert OfDay(rows', subject, day) == OfDay(rows, subject, day);
      assert |OfDay(rows, subject, day)| <= policy.daily;
    }
  }

  /** One more event about a request, and that request's row with it. */
  lemma AccountsRow(r: Registry, e: Event, key: Key, row: Row)
    requires LogAccounts(r) && e.about.ForRequest? && e.about.request == RequestKey(key, row.fingerprint)
    requires key in r.rows ==> r.rows[key].fingerprint == row.fingerprint
    requires match e.kind
      case DispatchReserved => key !in r.rows && row.readbacks == 0 && !row.state.Committed?
      case ReadbackReserved =>
        key in r.rows && row.readbacks == r.rows[key].readbacks + 1 && !row.state.Committed?
          && !r.rows[key].state.Committed?
      case AnswerCommitted =>
        key in r.rows && row.readbacks == r.rows[key].readbacks && row.state.Committed? && !r.rows[key].state.Committed?
      case _ => false
    ensures LogAccounts(r.(rows := r.rows[key := row], events := r.events + [e]))
  {
    var rows', events' := r.rows[key := row], r.events + [e];
    forall request ensures RowLogged(events', request, rows') {
      assert RowLogged(r.events, request, r.rows);
      CountAppend(r.events, e, DispatchReserved, ForRequest(request));
      CountAppend(r.events, e, ReadbackReserved, ForRequest(request));
      CountAppend(r.events, e, AnswerCommitted, ForRequest(request));
    }
    hide RowLogged;
    forall s ensures Count(events', SessionRevoked, ForSession(s)) == Count(r.events, SessionRevoked, ForSession(s)) {
      CountAppend(r.events, e, SessionRevoked, ForSession(s));
    }
    forall k ensures Count(events', RequestCancelled, ForKey(k)) == Count(r.events, RequestCancelled, ForKey(k)) {
      CountAppend(r.events, e, RequestCancelled, ForKey(k));
    }
    CountAppend(r.events, e, RegistrySuspended, ForNone);
  }

  /** Rows that keep their fingerprint, their budget and whether they are committed. */
  ghost predicate SameAccount(rows: map<Key, Row>, rows': map<Key, Row>) {
    && rows'.Keys == rows.Keys
    && (forall k :: k in rows ==>
          && rows'[k].fingerprint == rows[k].fingerprint && rows'[k].readbacks == rows[k].readbacks
          && (rows'[k].state.Committed? <==> rows[k].state.Committed?))
  }

  lemma AccountsSame(r: Registry, rows': map<Key, Row>)
    requires LogAccounts(r) && SameAccount(r.rows, rows')
    ensures LogAccounts(r.(rows := rows'))
  {
    hide Count;
    forall request ensures RowLogged(r.events, request, rows') {
      assert RowLogged(r.events, request, r.rows);
    }
  }

  // ----- transactions -----

  /** Only the clock moves. */
  lemma TouchKeeps(policy: Policy, r: Registry, final: int)
    requires Fit(policy, r) && r.last <= final
    ensures Fit(policy, r.(last := final)) && Forward(r, r.(last := final))
  {
    hide RowsFit, QuotasHold, TombstonesFit, RowLogged, Count;
    Resting(r);
  }

  ghost predicate MayReserve(policy: Policy, r: Registry, ask: Ask, t: Reading) {
    && ReserveFault(policy, r, ask, t.now).None? && r.last <= t.now <= t.final
  }

  lemma ReservedRow(policy: Policy, r: Registry, ask: Ask, claim: string, now: int, r': Registry)
    requires r' == Reserved(policy, r, ask, claim, now) && ReserveFault(policy, r, ask, now).None?
    requires RowsFit(policy, r.rows)
    ensures var key := KeyOf(ask);
      && key in r'.rows && RowFit(policy, key, r'.rows[key]) && !Closed(r'.rows[key]) && r'.rows[key].claim == claim
      && r'.rows == r.rows[key := r'.rows[key]]
      && r'.rows[key].fingerprint == FingerprintOf(policy, ask) && r'.rows[key].session == ask.session
      && r'.rows[key].readbacks == (if key in r.rows then r.rows[key].readbacks + 1 else 0)
      && (key in r.rows ==>
        !Closed(r.rows[key]) && r.rows[key].fingerprint == r'.rows[key].fingerprint
          && RowForward(r.rows[key], r'.rows[key]) && r.rows[key].until <= now)
      && (key !in r.rows ==> r'.rows[key].day == now / 86400)
      && !IsDenied(r, key, ask.session)
    ensures r'.events == r.events + [Event(if KeyOf(ask) in r.rows then ReadbackReserved else DispatchReserved,
                                           ForRequest(RequestKey(KeyOf(ask), FingerprintOf(policy, ask))), now)]
    ensures r' == r.(rows := r'.rows, events := r'.events)
  {
    hide OfDay, Ceiling;
    assert KeyOf(ask) in r.rows ==> RowFit(policy, KeyOf(ask), r.rows[KeyOf(ask)]);
  }

  lemma ReserveRoom(policy: Policy, r: Registry, ask: Ask, now: int)
    requires ReserveFault(policy, r, ask, now).None? && KeyOf(ask) !in r.rows
    ensures |r.rows| < policy.entries && |OfDay(r.rows, ask.subject, now / 86400)| < policy.daily
  {
    hide OfDay;
  }

  lemma ReserveQuota(policy: Policy, r: Registry, ask: Ask, claim: string, now: int, r': Registry)
    requires QuotasHold(policy, r.rows) && RowsFit(policy, r.rows)
    requires r' == Reserved(policy, r, ask, claim, now) && ReserveFault(policy, r, ask, now).None?
    ensures QuotasHold(policy, r'.rows)
  {
    hide QuotasHold, OfDay, RowsFit, ReserveFault, Reserved, RowFit, IsDenied;
    ReservedRow(policy, r, ask, claim, now, r');
    var key := KeyOf(ask);
    if key in r.rows {
      QuotaUpdate(policy, r.rows, r'.rows);
    } else {
      ReserveRoom(policy, r, ask, now);
      QuotaInsert(policy, r.rows, key, r'.rows[key]);
    }
  }

  lemma ReserveTombstones(policy: Policy, r: Registry, key: Key, row: Row)
    requires TombstonesFit(policy, r.rows, r.sessions, r.cancellations) && !IsDenied(r, key, row.session)
    ensures TombstonesFit(policy, r.rows[key := row], r.sessions, r.cancellations)
  {
  }

  lemma ReserveKeeps(policy: Policy, r: Registry, ask: Ask, claim: string, t: Reading, r': Registry)
    requires Fit(policy, r) && MayReserve(policy, r, ask, t)
    requires r' == Reserved(policy, r, ask, claim, t.now).(last := t.final)
    ensures Fit(policy, r') && Forward(r, r')
  {
    hide QuotasHold, ReserveFault, Reserved, RowForward, RowFit, LogAccounts, TombstonesFit, IsDenied, LogOrdered,
      Count;
    var x, key := Reserved(policy, r, ask, claim, t.now), KeyOf(ask);
    ReservedRow(policy, r, ask, claim, t.now, x);
    ReserveQuota(policy, r, ask, claim, t.now, x);
    ReserveTombstones(policy, r, key, x.rows[key]);
    var e := x.events[|r.events|];
    OrderAppend(r.events, r.last, e, t.final);
    AccountsRow(r, e, key, x.rows[key]);
    AccountsClock(x, t.final);
    RestingRows(r.rows);
  }

  lemma AccountsClock(r: Registry, last: int)
    requires LogAccounts(r)
    ensures LogAccounts(r.(last := last))
  {
    hide RowLogged, Count;
  }

  lemma RestingRows(rows: map<Key, Row>)
    ensures RowsForward(rows, rows)
  {
  }

  lemma UncertainKeeps(policy: Policy, r: Registry, request: RequestKey, claim: string, release: bool, r': Registry)
    requires Fit(policy, r) && r' == Uncertain(r, request, claim, release)
    ensures Fit(policy, r') && Forward(r, r')
  {
    hide QuotasHold, LogAccounts, LogOrdered, TombstonesFit, SameAccount, RowForward, RowFit;
    Resting(r);
    if Current(r, request, claim) {
      var key, row' := request.key, r'.rows[request.key];
      assert RowFit(policy, key, r.rows[key]);
      UncertainRow(policy, r, request, claim, release, row');
      RestingRows(r.rows);
      OneRowSame(policy, r.rows, r.sessions, r.cancellations, key, row');
      QuotaUpdate(policy, r.rows, r'.rows);
      AccountsSame(r, r'.rows);
    }
  }

  lemma UncertainRow(policy: Policy, r: Registry, request: RequestKey, claim: string, release: bool, row': Row)
    requires Current(r, request, claim) && RowFit(policy, request.key, r.rows[request.key])
    requires row' == Uncertain(r, request, claim, release).rows[request.key]
    ensures RowFit(policy, request.key, row') && RowForward(r.rows[request.key], row')
    ensures row'.readbacks == r.rows[request.key].readbacks
    ensures !Closed(row') && !Closed(r.rows[request.key]) && row'.session == r.rows[request.key].session
    ensures row'.day == r.rows[request.key].day && row'.fingerprint == r.rows[request.key].fingerprint
    ensures !row'.state.Committed? && !r.rows[request.key].state.Committed?
  {
  }

  /** Closing or releasing one open row leaves tombstones and accounts in order. */
  lemma OneRowSame(policy: Policy, rows: map<Key, Row>, sessions: set<Session>, cancellations: set<Key>, key: Key,
                   row: Row)
    requires TombstonesFit(policy, rows, sessions, cancellations) && key in rows && !Closed(rows[key])
    requires row.session == rows[key].session
    requires row.fingerprint == rows[key].fingerprint && row.readbacks == rows[key].readbacks
    ensures TombstonesFit(policy, rows[key := row], sessions, cancellations)
    ensures !row.state.Committed? && !rows[key].state.Committed? ==> SameAccount(rows, rows[key := row])
  {
  }

  lemma CommitRow(policy: Policy, r: Registry, request: RequestKey, claim: string, result: ProviderResult, bound: bool,
                  t: Reading, x: Tx)
    requires x == Commit(r, request, claim, result, bound, t)
    ensures x.Raised? ==> x.registry == r
    ensures x.Done? ==>
      && Current(r, request, claim) && !IsDenied(r, request.key, r.rows[request.key].session)
      && r.last <= t.now <= t.final
      && t.final < r.rows[request.key].expires && ResultFault(request, result).None?
      && (var row' :=
        r.rows[request.key].(state := Committed, until := 0,
                             answer := Some(Answer(result.answer, result.request, result.receipt)));
          x.registry == r.(rows := r.rows[request.key := row'], last := t.final,
                           events := r.events + [Event(AnswerCommitted, ForRequest(request), t.now)]))
  {
    hide ResultFault;
  }

  lemma CommitKeeps(policy: Policy, r: Registry, request: RequestKey, claim: string, result: ProviderResult,
                    bound: bool, t: Reading, x: Tx)
    requires Fit(policy, r) && x == Commit(r, request, claim, result, bound, t)
    ensures Fit(policy, x.registry) && Forward(r, x.registry)
  {
    hide Commit, LogAccounts, QuotasHold, LogOrdered, ResultFault;
    CommitRow(policy, r, request, claim, result, bound, t, x);
    Resting(r);
    if x.Done? {
      var rows' := x.registry.rows;
      QuotaUpdate(policy, r.rows, rows');
      var e := x.registry.events[|r.events|];
      OrderAppend(r.events, r.last, e, t.final);
      AccountsRow(r, e, request.key, rows'[request.key]);
      AccountsClock(r.(rows := rows', events := x.registry.events), t.final);
    }
  }

  // ----- denial -----

  lemma EntombedParts(policy: Policy, r: Registry, target: Target, r': Registry)
    requires r' == Entombed(policy, r, target) && !Tombstoned(r, target)
    ensures r'.rows == r.rows && r'.last == r.last && r.sessions <= r'.sessions && r.cancellations <= r'.cancellations
    ensures (r.suspended ==> r'.suspended) && (Tombstoned(r', target) || r'.suspended)
    ensures r'.events == r.events
      || (|r'.events| == |r.events| + 1 && r'.events[..|r.events|] == r.events && r'.events[|r.events|].at == r.last)
    ensures |r.sessions| + |r.cancellations| <= policy.entries ==> |r'.sessions| + |r'.cancellations| <= policy.entries
    ensures forall s :: s in r'.sessions ==> s in r.sessions || target == OneSession(s)
    ensures forall k :: k in r'.cancellations ==> k in r.cancellations || target == OneRequest(k)
  {
  }

  lemma EntombedAccounts(policy: Policy, r: Registry, target: Target, r': Registry)
    requires r' == Entombed(policy, r, target) && !Tombstoned(r, target) && LogAccounts(r)
    ensures LogAccounts(r')
  {
    hide RowLogged, Count;
    if r' != r {
      var e := r'.events[|r.events|];
      assert r'.events == r.events + [e];
      OtherEvents(r, e);
      forall s ensures Count(r'.events, SessionRevoked, ForSession(s)) == if s in r'.sessions then 1 else 0 {
        CountAppend(r.events, e, SessionRevoked, ForSession(s));
      }
      forall k ensures Count(r'.events, RequestCancelled, ForKey(k)) == if k in r'.cancellations then 1 else 0 {
        CountAppend(r.events, e, RequestCancelled, ForKey(k));
      }
      CountAppend(r.events, e, RegistrySuspended, ForNone);
    }
  }

  lemma OtherEvents(r: Registry, e: Event)
    requires LogAccounts(r) && !e.about.ForRequest?
    ensures forall request :: RowLogged(r.events + [e], request, r.rows)
  {
    hide RowLogged, Count;
    forall request ensures RowLogged(r.events + [e], request, r.rows) {
      assert RowLogged(r.events, request, r.rows);
      OtherEvent(r.events, e, request, r.rows);
    }
  }

  lemma OtherEvent(events: seq<Event>, e: Event, request: RequestKey, rows: map<Key, Row>)
    requires RowLogged(events, request, rows) && !e.about.ForRequest?
    ensures RowLogged(events + [e], request, rows)
  {
    CountAppend(events, e, DispatchReserved, ForRequest(request));
    CountAppend(events, e, ReadbackReserved, ForRequest(request));
    CountAppend(events, e, AnswerCommitted, ForRequest(request));
  }

  lemma CancelRowsKeep(policy: Policy, rows: map<Key, Row>, target: Target)
    requires RowsFit(policy, rows)
    ensures var rows' := CancelRows(rows, target);
      && RowsFit(policy, rows') && RowsForward(rows, rows') && SameAccount(rows, rows')
      && (forall k :: k in rows' ==>
        rows'[k].day == rows[k].day && rows'[k].session == rows[k].session && (Closed(rows[k]) ==> Closed(rows'[k])))
      && (forall k :: k in rows' && Matches(target, k, rows'[k].session) ==> Closed(rows'[k]))
  {
    hide RowFit, RowForward, CancelledRow, Matches, Closed;
    forall k | k in rows ensures CancelledWell(policy, k, rows[k]) {
      CancelledKeeps(policy, k, rows[k]);
    }
    forall k | k in rows ensures RowForward(rows[k], rows[k]) { CancelledKeeps(policy, k, rows[k]); }
  }

  ghost predicate CancelledWell(policy: Policy, k: Key, row: Row) {
    var row' := CancelledRow(row);
    && RowFit(policy, k, row') && RowForward(row, row') && Closed(row')
    && row'.fingerprint == row.fingerprint && row'.readbacks == row.readbacks && row'.day == row.day
    && row'.session == row.session
    && (row'.state.Committed? <==> row.state.Committed?)
  }

  lemma CancelledKeeps(policy: Policy, k: Key, row: Row)
    requires RowFit(policy, k, row)
    ensures CancelledWell(policy, k, row) && RowForward(row, row)
  {
  }

  lemma DenyTombstones(policy: Policy, r: Registry, target: Target, x: Registry)
    requires x == Entombed(policy, r, target) && !Tombstoned(r, target) && RowsFit(policy, r.rows)
    requires TombstonesFit(policy, r.rows, r.sessions, r.cancellations)
    ensures TombstonesFit(policy, CancelRows(x.rows, target), x.sessions, x.cancellations)
  {
    hide RowFit, Entombed, Tombstoned, RowForward;
    EntombedParts(policy, r, target, x);
    CancelRowsKeep(policy, r.rows, target);
    hide CancelRows;
  }

  /** After a denial the exact tombstone is there or the registry is suspended, and every request it names is closed. */
  ghost predicate ShutOut(r: Registry, target: Target) {
    && (Tombstoned(r, target) || r.suspended)
    && (forall k :: k in r.rows && Matches(target, k, r.rows[k].session) ==> Closed(r.rows[k]))
  }

  lemma DenyKeeps(policy: Policy, r: Registry, target: Target, x: Tx)
    requires Fit(policy, r) && x == Deny(policy, r, target)
    ensures Fit(policy, x.registry) && Forward(r, x.registry)
    ensures x.Raised? <==> !ValidTarget(target)
    ensures x.Done? ==> ShutOut(x.registry, target)
  {
    hide RowFit, LogAccounts, QuotasHold, LogOrdered, ValidTarget, RowForward, Entombed, CancelRows;
    Resting(r);
    if ValidTarget(target) && !Tombstoned(r, target) {
      var e, rows' := Entombed(policy, r, target), CancelRows(r.rows, target);
      EntombedParts(policy, r, target, e);
      EntombedAccounts(policy, r, target, e);
      CancelRowsKeep(policy, r.rows, target);
      DenyTombstones(policy, r, target, e);
      AccountsSame(e, rows');
      QuotaUpdate(policy, r.rows, rows');
      DenyOrder(r, e);
    }
  }

  lemma DenyOrder(r: Registry, r': Registry)
    requires LogOrdered(r.events, r.last) && r'.last == r.last
    requires r'.events == r.events
      || (|r'.events| == |r.events| + 1 && r'.events[..|r.events|] == r.events && r'.events[|r.events|].at == r.last)
    ensures LogOrdered(r'.events, r'.last)
  {
    if r'.events != r.events {
      assert r'.events == r.events + [r'.events[|r.events|]];
      OrderAppend(r.events, r.last, r'.events[|r.events|], r.last);
    }
  }
}
