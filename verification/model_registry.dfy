/**
 * The production model gateway's registry and its transactions, one function for each.
 *
 * Digests are injective, so a fingerprint is the material it digests and a request key is the operation with its
 * fingerprint. A transaction reads the clock on entry (now) and again before it commits (final); late says whether the
 * caller's monotonic deadline had passed by then.
 */
module ModelRegistry {
  import opened Base
  import opened JsonBounds

  /** The persisted policy: a registry that was made with other limits is refused when it is opened. */
  datatype Policy = Policy(provider: string, daily: nat, questionChars: nat, entries: nat, readbacks: nat)

  datatype Key = Key(subject: string, key: string)
  datatype Session = Session(subject: string, id: string)
  datatype Fingerprint = Fingerprint(question: string, context: string, subject: string, session: string,
                                     provider: string, expires: int)
  datatype RequestKey = RequestKey(key: Key, fingerprint: Fingerprint)

  /** encoded is the canonical text of context, None when it has none. */
  datatype Ask = Ask(subject: string, session: string, key: string, question: string, context: Json,
                     encoded: Option<string>, expires: int, timeout: real)

  datatype Reading = Reading(now: int, final: int, late: bool)

  datatype ProviderResult = Malformed
    | ProviderResult(answer: string, request: string, receipt: string, requestKey: RequestKey)
  datatype Answer = Answer(answer: string, request: string, receipt: string)

  datatype State = Prepared | Indeterminate | Committed | Cancelled
  datatype Row = Row(fingerprint: Fingerprint, session: string, day: int, state: State, expires: int, claim: string,
                     until: int, readbacks: nat, answer: Option<Answer>)

  datatype Subject = ForRequest(request: RequestKey) | ForSession(session: Session) | ForKey(key: Key) | ForNone
  datatype Kind = DispatchReserved | ReadbackReserved | AnswerCommitted | SessionRevoked | RequestCancelled
    | RegistrySuspended
  datatype Event = Event(kind: Kind, about: Subject, at: int)

  datatype Registry = Registry(rows: map<Key, Row>, sessions: set<Session>, cancellations: set<Key>, last: int,
                               suspended: bool, events: seq<Event>)

  datatype Code =
    | BindingInvalid | DeadlineInvalid | QuestionInvalid | BadContext(fault: ContextCode) | ProviderMismatch
    | ClockInvalid | ClockRollback | AuthorityExpired | DeadlineExpired | DeliveryRevoked | LifetimeInvalid
    | IdempotencyConflict | DuplicateCommitted | RequestInProgress | ReadbackExhausted | CapacityExhausted
    | QuotaExhausted | AttemptFenced | ResultUnbound | ResponseInvalid

  datatype Tx = Done(registry: Registry) | Raised(registry: Registry, code: Code)

  predicate Name(s: string) {
    Label(s, 128)
  }

  predicate Blank(s: string) {
    forall i :: 0 <= i < |s| ==> WhiteSpace(s[i])
  }

  function Ceiling(x: real): int {
    -((-x).Floor)
  }

  function KeyOf(ask: Ask): Key {
    Key(ask.subject, ask.key)
  }

  /** The checks of execute before its transaction; bound says the provider still carries the configured binding. */
  function AskFault(policy: Policy, ask: Ask, bound: bool): Option<Code> {
    if !Name(ask.subject) || !Name(ask.session) || !Name(ask.key) then Some(BindingInvalid)
    else if !(0.0 < ask.timeout <= 60.0) || !Timestamp(ask.expires) then Some(DeadlineInvalid)
    else if Blank(ask.question) || |ask.question| > policy.questionChars then Some(QuestionInvalid)
    else if ContextFault(ask.context, ask.encoded).Some?
      then Some(BadContext(ContextFault(ask.context, ask.encoded).value))
    else if !bound then Some(ProviderMismatch)
    else None
  }

  function FingerprintOf(policy: Policy, ask: Ask): Fingerprint {
    Fingerprint(ask.question, if ask.encoded.Some? then ask.encoded.value else "", ask.subject, ask.session,
                policy.provider, ask.expires)
  }

  // ----- the clock of a transaction -----

  function ClockFault(r: Registry, now: int): Option<Code> {
    if !Timestamp(now) then Some(ClockInvalid) else if now < r.last then Some(ClockRollback) else None
  }

  /** The end of a transaction under an authority: the clock may not have run back or past it. */
  function Ending(r: Registry, r': Registry, expires: int, t: Reading): Tx {
    if !Timestamp(t.final) then Raised(r, ClockInvalid)
    else if t.final < t.now then Raised(r, ClockRollback)
    else if t.final >= expires then Raised(r, AuthorityExpired)
    else if t.late then Raised(r, DeadlineExpired)
    else Done(r'.(last := t.final))
  }

  predicate IsDenied(r: Registry, key: Key, session: string) {
    r.suspended || Session(key.subject, session) in r.sessions || key in r.cancellations
  }

  function AuthorityFault(r: Registry, key: Key, session: string, expires: int, now: int): Option<Code> {
    if IsDenied(r, key, session) then Some(DeliveryRevoked) else if now >= expires then Some(AuthorityExpired) else None
  }

  predicate Current(r: Registry, request: RequestKey, claim: string) {
    && request.key in r.rows && r.rows[request.key].fingerprint == request.fingerprint
    && r.rows[request.key].claim == claim
    && (r.rows[request.key].state.Prepared? || r.rows[request.key].state.Indeterminate?)
  }

  function OfDay(rows: map<Key, Row>, subject: string, day: int): set<Key> {
    set k | k in rows && k.subject == subject && rows[k].day == day
  }

  // ----- transactions -----

  /** Why an admitted request may not reserve an attempt. */
  function ReserveFault(policy: Policy, r: Registry, ask: Ask, now: int): Option<Code> {
    var key := KeyOf(ask);
    if AuthorityFault(r, key, ask.session, ask.expires, now).Some?
      then AuthorityFault(r, key, ask.session, ask.expires, now)
    else if ask.expires - now > 300 then Some(LifetimeInvalid)
    else if key in r.rows then
      var row := r.rows[key];
      if row.fingerprint != FingerprintOf(policy, ask) then Some(IdempotencyConflict)
      else if row.state.Committed? then Some(DuplicateCommitted)
      else if row.state.Cancelled? then Some(DeliveryRevoked)
      else if row.until > now then Some(RequestInProgress)
      else if row.readbacks >= policy.readbacks then Some(ReadbackExhausted)
      else None
    else if |r.rows| >= policy.entries then Some(CapacityExhausted)
    else if |OfDay(r.rows, ask.subject, now / 86400)| >= policy.daily then Some(QuotaExhausted)
    else None
  }

  /** The row and the event an attempt reserves: the first dispatch, or a paid readback under a new claim. */
  function Reserved(policy: Policy, r: Registry, ask: Ask, claim: string, now: int): Registry {
    var key, material := KeyOf(ask), FingerprintOf(policy, ask);
    var until := if ask.expires <= now + Ceiling(ask.timeout) + 1 then ask.expires else now + Ceiling(ask.timeout) + 1;
    var row := if key in r.rows
      then r.rows[key].(state := Indeterminate, claim := claim, until := until, readbacks := r.rows[key].readbacks + 1)
               else Row(material, ask.session, now / 86400, Prepared, ask.expires, claim, until, 0, None);
    r.(rows := r.rows[key := row],
       events := r.events
         + [Event(if key in r.rows then ReadbackReserved else DispatchReserved, ForRequest(RequestKey(key, material)),
                  now)])
  }

  /** The reserving transaction of execute. */
  function Reserve(policy: Policy, r: Registry, ask: Ask, bound: bool, claim: string, t: Reading): Tx {
    if AskFault(policy, ask, bound).Some? then Raised(r, AskFault(policy, ask, bound).value)
    else if ClockFault(r, t.now).Some? then Raised(r, ClockFault(r, t.now).value)
    else if ReserveFault(policy, r, ask, t.now).Some? then Raised(r, ReserveFault(policy, r, ask, t.now).value)
    else Ending(r, Reserved(policy, r, ask, claim, t.now), ask.expires, t)
  }

  /** authorize: the check the worker makes before it calls the provider, and a provider may repeat. */
  function Authorize(r: Registry, request: RequestKey, claim: string, bound: bool, t: Reading): Tx {
    var expires := request.fingerprint.expires;
    if ClockFault(r, t.now).Some? then Raised(r, ClockFault(r, t.now).value)
    else if !bound then Raised(r, ProviderMismatch)
    else if AuthorityFault(r, request.key, request.fingerprint.session, expires, t.now).Some?
    then Raised(r, AuthorityFault(r, request.key, request.fingerprint.session, expires, t.now).value)
    else if !Current(r, request, claim) then Raised(r, AttemptFenced)
    else Ending(r, r, expires, t)
  }

  /** _uncertain: a denial transaction, it needs no clock and cannot fail. */
  function Uncertain(r: Registry, request: RequestKey, claim: string, release: bool): Registry {
    if !Current(r, request, claim) then r else
    var row := r.rows[request.key];
    r.(rows := r.rows[request.key := row.(state := Indeterminate, until := if release then 0 else row.until)])
  }

  function ResultFault(request: RequestKey, result: ProviderResult): Option<Code> {
    if result.Malformed? || result.requestKey != request then Some(ResultUnbound)
    else if Blank(result.answer) || |result.answer| > 65536 || Utf8Length(result.answer) > 65536
      then Some(ResponseInvalid)
    else if !Name(result.request) || !Name(result.receipt) then Some(BindingInvalid)
    else None
  }

  /** _commit: only the attempt that holds the current claim may, and only under full authority. */
  function Commit(r: Registry, request: RequestKey, claim: string, result: ProviderResult, bound: bool,
                  t: Reading): Tx {
    if ResultFault(request, result).Some? then Raised(r, ResultFault(request, result).value)
    else if request.key !in r.rows || r.rows[request.key].fingerprint != request.fingerprint
      then Raised(r, AttemptFenced)
    else
      var row := r.rows[request.key];
      if ClockFault(r, t.now).Some? then Raised(r, ClockFault(r, t.now).value)
      else if !bound then Raised(r, ProviderMismatch)
      else if !Current(r, request, claim) then Raised(r, AttemptFenced)
      else if AuthorityFault(r, request.key, row.session, row.expires, t.now).Some?
      then Raised(r, AuthorityFault(r, request.key, row.session, row.expires, t.now).value)
      else
        var row' :=
          row.(state := Committed, until := 0, answer := Some(Answer(result.answer, result.request, result.receipt)));
        var r' :=
          r.(rows := r.rows[request.key := row'],
             events := r.events + [Event(AnswerCommitted, ForRequest(request), t.now)]);
        Ending(r, r', row.expires, t)
  }

  /** What a denial is about: one session or one request of a subject. */
  datatype Target = OneSession(session: Session) | OneRequest(key: Key)

  predicate Matches(target: Target, key: Key, session: string) {
    match target
    case OneSession(s) => s == Session(key.subject, session)
    case OneRequest(k) => k == key
  }

  predicate Tombstoned(r: Registry, target: Target) {
    match target
    case OneSession(s) => s in r.sessions
    case OneRequest(k) => k in r.cancellations
  }

  predicate ValidTarget(target: Target) {
    match target
    case OneSession(s) => Name(s.subject) && Name(s.id)
    case OneRequest(k) => Name(k.subject) && Name(k.key)
  }

  /** The tombstone, or when there is no room for it the suspension of the whole registry. */
  function Entombed(policy: Policy, r: Registry, target: Target): Registry {
    if |r.sessions| + |r.cancellations| >= policy.entries then
      if r.suspended then r else r.(suspended := true, events := r.events + [Event(RegistrySuspended, ForNone, r.last)])
    else match target
      case OneSession(s) =>
        r.(sessions := r.sessions + {s}, events := r.events + [Event(SessionRevoked, ForSession(s), r.last)])
      case OneRequest(k) =>
        r.(cancellations := r.cancellations + {k}, events := r.events + [Event(RequestCancelled, ForKey(k), r.last)])
  }

  function CancelledRow(row: Row): Row {
    if row.state.Prepared? || row.state.Indeterminate? then row.(state := Cancelled, until := 0) else row
  }

  function CancelRows(rows: map<Key, Row>, target: Target): map<Key, Row> {
    map k | k in rows :: if Matches(target, k, rows[k].session) then CancelledRow(rows[k]) else rows[k]
  }

  /** _deny, behind cancel and revoke_session; like every denial it does not depend on the clock. */
  function Deny(policy: Policy, r: Registry, target: Target): Tx {
    if !ValidTarget(target) then Raised(r, BindingInvalid)
    else if Tombstoned(r, target) then Done(r) else
    var r' := Entombed(policy, r, target);
    Done(r'.(rows := CancelRows(r'.rows, target)))
  }
}
