/**
 * The routes of routes/mapa-astral.js: the background run `processarMapaAstral`,
 * the `POST /calcular` handler that answers at once and dispatches that run,
 * and the `GET /status` handler. The computation library is an oracle whose
 * answer is a parameter; dispatch is a sequential call made after the reply.
 */
module MapaAstral {
  import opened Wrappers
  import opened JsValues
  import opened JsStrings
  import opened Validator
  import opened ValidatorFixed
  import opened Auth
  import opened Store

  /** How `astrolink.calcularMapaAstral(data)` settles: with a chart value, or by rejecting. */
  datatype Calculation = Calculated(mapa: Value) | CalculationRejected

  /** The step of a run whose failure sent it to the catch block (lines 155, 158 and 166). */
  datatype Stage = Calculate | SaveChart | NotifySuccess

  /**
   * How one run of `processarMapaAstral` ends. `errorNotified` is false when the
   * catch block's own `fireAdd` rejects: the run's promise then rejects with no
   * handler, since the dispatching callback does not await it.
   */
  datatype RunOutcome = Completed | Failed(stage: Stage, errorNotified: bool)

  /** The outcomes a run can reach with this answer of the computation library. */
  predicate Possible(answer: Calculation, outcome: RunOutcome)
  {
    match outcome
    case Completed => answer.Calculated?
    case Failed(stage, _) => (stage == Calculate) == answer.CalculationRejected?
  }

  /** `name` as stored: the string, or `null`. */
  function NameValue(name: Option<string>): Value
  {
    match name
    case Some(s) => Str(s)
    case None => Null
  }

  /** Lines 158-163: `{...data, mapa, createdAt: serverTimestamp(), status: 'completed'}`. */
  function ChartValues(data: BirthData, mapa: Value): Document
  {
    map[
      "date" := data.date, "time" := data.time,
      "lat" := Num(data.lat), "lng" := Num(data.lng), "name" := NameValue(data.name),
      "mapa" := mapa, "createdAt" := ServerTimestamp, "status" := Str("completed")]
  }

  /**
   * The completed chart carries the normalised birth data, the result, the
   * server timestamp and the status "completed", and clears no error field.
   */
  lemma ChartValuesFields(data: BirthData, mapa: Value)
    ensures var r := ChartValues(data, mapa);
      && Get(r, "status") == Str("completed") && Get(r, "createdAt") == ServerTimestamp && Get(r, "mapa") == mapa
      && Get(r, "date") == data.date && Get(r, "time") == data.time
      && Get(r, "lat") == Num(data.lat) && Get(r, "lng") == Num(data.lng)
      && Get(r, "name") == (if data.name.Some? then Str(data.name.value) else Null)
      && "error" !in r
  {
  }

  /** Lines 166-172. */
  const ChartReadyNotification: Notification := Notification(ChartReady, false, ServerTimestamp)
  /** Lines 180-186. */
  const ChartFailedNotification: Notification := Notification(ChartFailed, false, ServerTimestamp)
  /** Lines 248-254. */
  const SystemFailureNotification: Notification := Notification(SystemFailure, false, ServerTimestamp)

  /** The writes that reach the store in a run with this outcome, in order. */
  function RunWrites(uid: Uid, data: BirthData, answer: Calculation, outcome: RunOutcome): (r: seq<Write>)
    requires Possible(answer, outcome)
    ensures |r| <= 2 && forall w :: w in r ==> w.uid == uid
    ensures (r != [] && r[0].SetChart?) <==> outcome.Completed? || outcome.stage == NotifySuccess
    ensures r != [] && r[0].SetChart? ==> r[0].values == ChartValues(data, answer.mapa)
  {
    var errorNotice := if outcome.Failed? && outcome.errorNotified then [AddNotification(uid, ChartFailedNotification)] else [];
    match outcome
    case Completed => [SetChart(uid, ChartValues(data, answer.mapa)), AddNotification(uid, ChartReadyNotification)]
    case Failed(Calculate, _) => errorNotice
    case Failed(SaveChart, _) => errorNotice
    case Failed(NotifySuccess, _) => [SetChart(uid, ChartValues(data, answer.mapa))] + errorNotice
  }

  /**
   * Lines 150-188: compute, merge the completed chart, then add the success
   * notification; on any failure add one error notification instead.
   */
  method ProcessarMapaAstral(db: Db, data: BirthData, uid: Uid, answer: Calculation) returns (outcome: RunOutcome)
    modifies db
    ensures Possible(answer, outcome)
    ensures db.State() == Replay(old(db.State()), RunWrites(uid, data, answer, outcome))
    ensures db.trace == old(db.trace) + AsEffects(RunWrites(uid, data, answer, outcome))
  {
    var failedAt: Stage;
    if answer.CalculationRejected? {
      failedAt := Calculate;
    } else {
      var saved := db.FireSet(uid, ChartValues(data, answer.mapa));
      if !saved {
        failedAt := SaveChart;
      } else {
        var notified := db.FireAdd(uid, ChartReadyNotification);
        if notified {
          outcome := Completed;
          AsEffectsPair(SetChart(uid, ChartValues(data, answer.mapa)), AddNotification(uid, ChartReadyNotification));
          ReplayPair(old(db.State()), SetChart(uid, ChartValues(data, answer.mapa)), AddNotification(uid, ChartReadyNotification));
          return;
        }
        failedAt := NotifySuccess;
      }
    }
    // The catch block (lines 176-187).
    var errorNotified := db.FireAdd(uid, ChartFailedNotification);
    outcome := Failed(failedAt, errorNotified);
    if failedAt == NotifySuccess {
      ReplayPair(old(db.State()), SetChart(uid, ChartValues(data, answer.mapa)), AddNotification(uid, ChartFailedNotification));
      AsEffectsPair(SetChart(uid, ChartValues(data, answer.mapa)), AddNotification(uid, ChartFailedNotification));
    } else {
      ReplayPair(old(db.State()), AddNotification(uid, ChartFailedNotification), AddNotification(uid, ChartFailedNotification));
      AsEffectsPair(AddNotification(uid, ChartFailedNotification), AddNotification(uid, ChartFailedNotification));
    }
  }

  lemma AsEffectsPair(a: Write, b: Write)
    ensures AsEffects([]) == [] && AsEffects([a]) == [Persist(a)]
    ensures AsEffects([a, b]) == [Persist(a), Persist(b)]
  {
  }

  /** The success notification is written only by a completed run, right after the chart marked completed. */
  lemma SuccessNotificationFollowsCompletedChart(uid: Uid, data: BirthData, answer: Calculation, outcome: RunOutcome, i: int)
    requires Possible(answer, outcome)
    requires 0 <= i < |RunWrites(uid, data, answer, outcome)|
    requires RunWrites(uid, data, answer, outcome)[i].AddNotification?
    requires RunWrites(uid, data, answer, outcome)[i].notification.notice.Type() == SuccessType
    ensures outcome == Completed && i == 1
    ensures RunWrites(uid, data, answer, outcome)[0] == SetChart(uid, ChartValues(data, answer.mapa))
    ensures Get(ChartValues(data, answer.mapa), "status") == Str("completed")
  {
  }

  /**
   * A run writes only its user's records and adds at most one notification: the
   * success one when it completes, the error one (if that write succeeds) when it
   * fails. A run that fails before the chart is saved writes no chart.
   */
  lemma RunNotifiesOnce(uid: Uid, data: BirthData, answer: Calculation, outcome: RunOutcome)
    requires Possible(answer, outcome)
    ensures forall w :: w in RunWrites(uid, data, answer, outcome) ==> w.uid == uid
    ensures NotificationsFor(RunWrites(uid, data, answer, outcome), uid) ==
      match outcome
      case Completed => [ChartReadyNotification]
      case Failed(_, notified) => if notified then [ChartFailedNotification] else []
    ensures |NotificationsFor(RunWrites(uid, data, answer, outcome), uid)| <= 1
    ensures ChartWritesFor(RunWrites(uid, data, answer, outcome), uid) ==
      if outcome == Completed || outcome.stage == NotifySuccess then [ChartValues(data, answer.mapa)] else []
  {
    var ws := RunWrites(uid, data, answer, outcome);
    if |ws| == 1 {
      assert ws[1..] == [];
    } else if |ws| == 2 {
      PairWritesFor(ws[0], ws[1], uid);
      assert ws == [ws[0], ws[1]];
    }
  }

  lemma ReplayPair(s: StoreState, a: Write, b: Write)
    ensures Replay(s, [a]) == Apply(s, a)
    ensures Replay(s, [a, b]) == Apply(Apply(s, a), b)
  {
    assert [a, b][1..] == [b] && [b][1..] == [] && [a][1..] == [];
    assert Replay(s, [a]) == Replay(Apply(s, a), []);
    assert Replay(Apply(s, a), [b]) == Replay(Apply(Apply(s, a), b), []);
  }

  lemma PairWritesFor(a: Write, b: Write, uid: Uid)
    ensures NotificationsFor([a, b], uid) == NotificationsFor([a], uid) + NotificationsFor([b], uid)
    ensures ChartWritesFor([a, b], uid) == ChartWritesFor([a], uid) + ChartWritesFor([b], uid)
  {
    assert [a, b][1..] == [b] && [a][1..] == [] && [b][1..] == [];
  }

  /**
   * The store after a run: the user's notifications grow by what the run added,
   * the chart is merged with the completed result exactly when it was saved,
   * and every other user's records are untouched.
   */
  lemma RunEffect(s: StoreState, uid: Uid, data: BirthData, answer: Calculation, outcome: RunOutcome, other: Uid)
    requires Possible(answer, outcome) && other != uid
    ensures var after := Replay(s, RunWrites(uid, data, answer, outcome));
      && Log(after, uid) == Log(s, uid) + NotificationsFor(RunWrites(uid, data, answer, outcome), uid)
      && Chart(after, uid) ==
        (if outcome == Completed || outcome.stage == NotifySuccess
         then Some(Merge(ChartOrEmpty(s, uid), ChartValues(data, answer.mapa)))
         else Chart(s, uid))
      && Log(after, other) == Log(s, other)
      && Chart(after, other) == Chart(s, other)
  {
    var ws := RunWrites(uid, data, answer, outcome);
    RunNotifiesOnce(uid, data, answer, outcome);
    ReplayLog(s, ws, uid);
    ReplayChart(s, ws, uid);
    ReplayLog(s, ws, other);
    ReplayChart(s, ws, other);
    NoWritesForOther(ws, uid, other);
    if outcome == Completed || outcome.stage == NotifySuccess {
      var vs := ChartWritesFor(ws, uid);
      assert vs == [ChartValues(data, answer.mapa)];
      assert vs[1..] == [];
    }
  }

  lemma {:induction false} NoWritesForOther(ws: seq<Write>, uid: Uid, other: Uid)
    requires other != uid
    requires forall w :: w in ws ==> w.uid == uid
    ensures NotificationsFor(ws, other) == [] && ChartWritesFor(ws, other) == []
  {
    if ws != [] {
      NoWritesForOther(ws[1..], uid, other);
    }
  }

  // POST /calcular

  /** What the POST handler decides: the status code and, for 202, the run it dispatches. */
  datatype PostDecision =
    | BadRequest(details: seq<FieldError>)
    | Accepted(uid: Uid, data: BirthData)
    | Unauthorized
    | InternalError(notify: Option<Uid>)
  {
    function Code(): int
    {
      match this
      case BadRequest(_) => 400
      case Accepted(_, _) => 202
      case Unauthorized => 401
      case InternalError(_) => 500
    }
  }

  /**
   * Lines 199-260 as a decision: authenticate, then validate; an invalid input
   * answers 400 with the errors, a valid one 202 and a dispatched run. A thrown
   * error answers 401 when its message names a token, 500 otherwise, and on 500
   * the caller, when known, is to be notified.
   */
  function DecidePost(auth: Result<Uid, string>, validation: Outcome): (d: PostDecision)
    requires validation.Returned? ==> validation.validation.WellFormed()
    ensures d.Accepted? ==>
      && auth == Success(d.uid) && validation.Returned? && validation.validation.isValid
      && validation.validation.data == Some(d.data)
    ensures d.BadRequest? ==>
      auth.Success? && validation.Returned? && d.details == validation.validation.errors && d.details != []
    ensures d.InternalError? && d.notify.Some? ==>
      auth == Success(d.notify.value) && d.notify.value != "" && validation.Threw?
    ensures auth.Failure? ==> d == Unauthorized || d == InternalError(None)
  {
    match auth
    case Failure(message) =>
      if StatusForError(message) == 401 then Unauthorized else InternalError(None)
    case Success(uid) =>
      match validation
      case Threw(thrown) =>
        if StatusForError(thrown.Message()) == 401 then Unauthorized
        else InternalError(if uid != "" then Some(uid) else None)
      case Returned(v) =>
        if !v.isValid then BadRequest(v.errors) else Accepted(uid, v.data.value)
  }

  /** Neither TypeError the validator can throw mentions `Token` or `Unauthorized`, so both are answered 500. */
  lemma ThrownIsInternal(thrown: Thrown)
    ensures StatusForError(thrown.Message()) == 500
  {
    var m := thrown.Message();
    match thrown {
      case ConversionAt(_) =>
        assert m == "Cannot convert object to primitive value";
      case TrimNotAFunction =>
        assert m == "name?.trim is not a function";
    }
    assert forall i :: 0 <= i < |m| ==> m[i] != 'T' && m[i] != 'U';
    StatusForErrorCases(m);
  }

  /** Authentication comes first: a request whose header does not verify is answered 401, whatever its body. */
  lemma UnauthenticatedIsUnauthorized(header: Option<string>, verifyIdToken: TokenVerifier, b: Body)
    requires VerifyUser(header, verifyIdToken).Failure?
    ensures DecidePost(VerifyUser(header, verifyIdToken), Validate(b)) == Unauthorized
  {
    AuthFailureIsUnauthorized(header, verifyIdToken);
  }

  /** An authenticated request with invalid input is answered 400 with every field error. */
  lemma InvalidInputIsBadRequest(uid: Uid, b: Body)
    requires Validate(b).Returned? && Errors(b) != []
    ensures DecidePost(Success(uid), Validate(b)) == BadRequest(Errors(b))
  {
  }

  /** An authenticated request with valid input is answered 202 and dispatches a run over the normalised data. */
  lemma ValidInputIsAccepted(uid: Uid, b: Body)
    requires Validate(b).Returned? && Errors(b) == []
    ensures DecidePost(Success(uid), Validate(b)) ==
      Accepted(uid, BirthData(b.date, b.time, b.lat.x, b.lng.x, NormalisedName(b.name).value))
  {
  }

  /** As written, a present non-string name gets 500, and the caller is to be notified, not 400. */
  lemma NonStringNameIsInternalError(uid: Uid, b: Body)
    requires uid != "" && !IsNullish(b.name) && !b.name.Str?
    ensures DecidePost(Success(uid), Validate(b)) == InternalError(Some(uid))
  {
    NonStringNameThrows(b);
    ThrownIsInternal(Validate(b).thrown);
  }

  /** A field whose string conversion throws gets 500, and the caller is to be notified, whatever else is wrong. */
  lemma ConversionFailureIsInternalError(uid: Uid, b: Body)
    requires uid != "" && FirstConversionFailure(b).Some?
    ensures DecidePost(Success(uid), Validate(b)) == InternalError(Some(uid))
  {
    ThrownIsInternal(ConversionAt(FirstConversionFailure(b).value));
  }

  /**
   * With the validator corrected at line 99, a request is answered 500 exactly
   * when it is authenticated and a field's string conversion throws.
   */
  lemma FixedValidatorInternalErrorOnlyOnConversion(header: Option<string>, verifyIdToken: TokenVerifier, b: Body)
    ensures DecidePost(VerifyUser(header, verifyIdToken), ValidateFixed(b)).InternalError? <==>
      VerifyUser(header, verifyIdToken).Success? && FirstConversionFailure(b).Some?
  {
    if VerifyUser(header, verifyIdToken).Failure? {
      AuthFailureIsUnauthorized(header, verifyIdToken);
    } else if FirstConversionFailure(b).Some? {
      ThrownIsInternal(ConversionAt(FirstConversionFailure(b).value));
    }
  }

  /** The effect sequences a POST request with this decision can produce. */
  ghost predicate PostTrace(d: PostDecision, answer: Calculation, effects: seq<Effect>)
  {
    match d
    case Accepted(uid, data) =>
      exists o :: Possible(answer, o) && effects == [Reply(202)] + AsEffects(RunWrites(uid, data, answer, o))
    case InternalError(Some(uid)) =>
      effects == [Reply(500)] || effects == [Reply(500), Persist(AddNotification(uid, SystemFailureNotification))]
    case _ =>
      effects == [Reply(d.Code())]
  }

  /**
   * Lines 199-260: authenticate, and only then validate; reply; then, for a
   * valid request, run `processarMapaAstral` (the `setImmediate` callback, run
   * to completion), and for a 500 try to notify the caller, swallowing a
   * failure of that write. `effects` is what the request adds to the trace.
   */
  method Calcular(db: Db, header: Option<string>, body: Body, verifyIdToken: TokenVerifier, answer: Calculation)
    returns (decision: PostDecision, ghost effects: seq<Effect>)
    modifies db
    ensures decision == DecidePost(VerifyUser(header, verifyIdToken), Validate(body))
    ensures PostTrace(decision, answer, effects)
    ensures db.trace == old(db.trace) + effects
    ensures db.State() == Replay(old(db.State()), Persisted(effects))
  {
    var auth := VerifyUser(header, verifyIdToken);
    if auth.Failure? {
      decision := if StatusForError(auth.error) == 401 then Unauthorized else InternalError(None);
    } else {
      var validation := ValidateInputData(body);
      decision := DecidePost(auth, validation);
    }
    match decision {
      case Accepted(uid, data) =>
        effects := Dispatch(db, uid, data, answer);
      case InternalError(Some(uid)) =>
        effects := ReplyAndNotify(db, uid);
      case _ =>
        db.Respond(decision.Code());
        effects := [Reply(decision.Code())];
        ReplyOnly(decision, answer);
    }
  }

  lemma ReplyOnly(d: PostDecision, answer: Calculation)
    requires !d.Accepted? && !(d.InternalError? && d.notify.Some?)
    ensures PostTrace(d, answer, [Reply(d.Code())])
    ensures Persisted([Reply(d.Code())]) == []
  {
    assert [Reply(d.Code())][1..] == [];
  }

  /** Lines 216-226: reply 202, then run the computation for the caller. */
  method Dispatch(db: Db, uid: Uid, data: BirthData, answer: Calculation) returns (ghost effects: seq<Effect>)
    modifies db
    ensures PostTrace(Accepted(uid, data), answer, effects)
    ensures db.trace == old(db.trace) + effects
    ensures db.State() == Replay(old(db.State()), Persisted(effects))
  {
    db.Respond(202);
    var outcome := ProcessarMapaAstral(db, data, uid, answer);
    ghost var ws := RunWrites(uid, data, answer, outcome);
    effects := [Reply(202)] + AsEffects(ws);
    PersistedOfReply(202, ws);
  }

  /** Lines 240-258: reply 500, then try to notify the caller, swallowing a failure of that write. */
  method ReplyAndNotify(db: Db, uid: Uid) returns (ghost effects: seq<Effect>)
    modifies db
    ensures effects == [Reply(500)] || effects == [Reply(500), Persist(AddNotification(uid, SystemFailureNotification))]
    ensures db.trace == old(db.trace) + effects
    ensures db.State() == Replay(old(db.State()), Persisted(effects))
  {
    db.Respond(500);
    var n := AddNotification(uid, SystemFailureNotification);
    var ok := db.FireAdd(uid, SystemFailureNotification);
    ReplayPair(old(db.State()), n, n);
    if ok {
      effects := [Reply(500), Persist(n)];
      assert AsEffects([n]) == [Persist(n)];
      PersistedOfReply(500, [n]);
    } else {
      effects := [Reply(500)];
      PersistedOfReply(500, []);
    }
  }

  lemma {:induction false} PersistedOfReply(code: int, ws: seq<Write>)
    ensures Persisted([Reply(code)] + AsEffects(ws)) == ws
  {
    PersistedAsEffects(ws);
    assert ([Reply(code)] + AsEffects(ws))[1..] == AsEffects(ws);
  }

  lemma {:induction false} PersistedAsEffects(ws: seq<Write>)
    ensures Persisted(AsEffects(ws)) == ws
  {
    if ws != [] {
      PersistedAsEffects(ws[1..]);
      assert AsEffects(ws)[1..] == AsEffects(ws[1..]);
    }
  }

  /** The reply comes first and is the only one; everything after it is a store write. */
  lemma ReplyFirst(d: PostDecision, answer: Calculation, effects: seq<Effect>)
    requires PostTrace(d, answer, effects)
    ensures |effects| >= 1 && effects[0] == Reply(d.Code())
    ensures forall i :: 1 <= i < |effects| ==> effects[i].Persist?
  {
  }

  /** A request answered 400 or 401 writes nothing, so authentication and validation precede all persistence. */
  lemma RejectedRequestPersistsNothing(d: PostDecision, answer: Calculation, effects: seq<Effect>)
    requires PostTrace(d, answer, effects)
    requires d.BadRequest? || d.Unauthorized?
    ensures Persisted(effects) == []
  {
    assert effects[1..] == [];
  }

  /** An accepted request writes only the caller's records, and at most one notification. */
  lemma AcceptedPersistsOwnRecords(d: PostDecision, answer: Calculation, effects: seq<Effect>)
    requires PostTrace(d, answer, effects) && d.Accepted?
    ensures forall w :: w in Persisted(effects) ==> w.uid == d.uid
    ensures |NotificationsFor(Persisted(effects), d.uid)| <= 1
  {
    var o :| Possible(answer, o) && effects == [Reply(202)] + AsEffects(RunWrites(d.uid, d.data, answer, o));
    PersistedOfReply(202, RunWrites(d.uid, d.data, answer, o));
    RunNotifiesOnce(d.uid, d.data, answer, o);
  }

  // GET /status

  /** Lines 283-288: the view of a chart document. */
  datatype StatusView = StatusView(status: Value, createdAt: Value, hasResult: bool, error: Value)

  datatype StatusReply = StatusOk(view: StatusView) | NotFound | StatusUnauthorized | StatusInternalError
  {
    function Code(): int
    {
      match this
      case StatusOk(_) => 200
      case NotFound => 404
      case StatusUnauthorized => 401
      case StatusInternalError => 500
    }
  }

  /** `{status: data.status || 'unknown', createdAt: data.createdAt, hasResult: !!data.mapa, error: data.error || null}` */
  function ViewOf(doc: Document): (v: StatusView)
    ensures Truthy(Get(doc, "status")) ==> v.status == Get(doc, "status")
    ensures !Truthy(Get(doc, "status")) ==> v.status == Str("unknown")
    ensures v.hasResult <==> Truthy(Get(doc, "mapa"))
    ensures v.createdAt == Get(doc, "createdAt")
    ensures Truthy(Get(doc, "error")) ==> v.error == Get(doc, "error")
    ensures !Truthy(Get(doc, "error")) ==> v.error == Null
  {
    StatusView(Or(Get(doc, "status"), Str("unknown")), Get(doc, "createdAt"), Truthy(Get(doc, "mapa")), Or(Get(doc, "error"), Null))
  }

  /** Lines 270-305 as a decision over the outcome of `verifyUser` and of the read. */
  function DecideStatus(auth: Result<Uid, string>, read: ReadResult): (r: StatusReply)
    ensures r.StatusOk? <==> auth.Success? && read.Found?
    ensures r.StatusOk? ==> r.view == ViewOf(read.doc)
    ensures r == NotFound <==> auth.Success? && read.Missing?
    ensures auth.Failure? || read.ReadFailed? ==> r == StatusUnauthorized || r == StatusInternalError
  {
    match auth
    case Failure(message) => if StatusForError(message) == 401 then StatusUnauthorized else StatusInternalError
    case Success(_) =>
      match read
      case ReadFailed(message) => if StatusForError(message) == 401 then StatusUnauthorized else StatusInternalError
      case Missing => NotFound
      case Found(doc) => StatusOk(ViewOf(doc))
  }

  /** Lines 270-305: authenticate, read the caller's chart document, answer. Nothing is written. */
  method GetStatus(db: Db, header: Option<string>, verifyIdToken: TokenVerifier) returns (reply: StatusReply)
    ensures VerifyUser(header, verifyIdToken).Failure? ==> reply == StatusUnauthorized
    ensures VerifyUser(header, verifyIdToken).Success? ==>
      var uid := VerifyUser(header, verifyIdToken).value;
      || reply == DecideStatus(Success(uid), ReadOf(db.State(), uid))
      || reply == StatusUnauthorized || reply == StatusInternalError
  {
    var auth := VerifyUser(header, verifyIdToken);
    if auth.Failure? {
      AuthFailureIsUnauthorized(header, verifyIdToken);
      return DecideStatus(auth, Missing);
    }
    var read := db.ReadChart(auth.value);
    reply := DecideStatus(auth, read);
  }

  /** Polling reports 404 exactly when the caller has no chart document. */
  lemma NotFoundIffNoChart(s: StoreState, uid: Uid)
    ensures DecideStatus(Success(uid), ReadOf(s, uid)) == NotFound <==> Chart(s, uid) == None
  {
  }

  /** A completed run merges the computed chart into the caller's document and adds one success notification. */
  lemma CompletedRun(s: StoreState, uid: Uid, data: BirthData, mapa: Value)
    ensures var after := Replay(s, RunWrites(uid, data, Calculated(mapa), Completed));
      && Chart(after, uid) == Some(Merge(ChartOrEmpty(s, uid), ChartValues(data, mapa)))
      && Log(after, uid) == Log(s, uid) + [ChartReadyNotification]
  {
    var ws := RunWrites(uid, data, Calculated(mapa), Completed);
    RunNotifiesOnce(uid, data, Calculated(mapa), Completed);
    ReplayLog(s, ws, uid);
    ReplayChart(s, ws, uid);
    var vs := ChartWritesFor(ws, uid);
    assert vs == [ChartValues(data, mapa)] && vs[1..] == [];
  }

  /**
   * The status view of a document after the completed chart was merged into
   * it. An undefined result is skipped by the merge, so `hasResult` then
   * reports the document's earlier `mapa`.
   */
  lemma CompletedView(doc: Document, data: BirthData, mapa: Value)
    ensures ViewOf(Merge(doc, ChartValues(data, mapa))) ==
      StatusView(Str("completed"), ServerTimestamp,
        Truthy(if mapa != Undefined then mapa else Get(doc, "mapa")), Or(Get(doc, "error"), Null))
  {
    var values := ChartValues(data, mapa);
    ChartValuesFields(data, mapa);
    var merged := Merge(doc, values);
    assert Get(merged, "status") == Str("completed");
    assert Get(merged, "createdAt") == ServerTimestamp;
    assert Get(merged, "mapa") == if mapa != Undefined then mapa else Get(doc, "mapa");
    assert Get(merged, "error") == Get(doc, "error");
  }

  /**
   * After a completed run, polling reports "completed" with the server
   * timestamp, whether a result exists (the earlier one when the library
   * resolved with `undefined`), and the document's earlier error field, if any.
   */
  lemma StatusAfterCompletedRun(s: StoreState, uid: Uid, data: BirthData, mapa: Value)
    ensures var after := Replay(s, RunWrites(uid, data, Calculated(mapa), Completed));
      DecideStatus(Success(uid), ReadOf(after, uid)) ==
      StatusOk(StatusView(Str("completed"), ServerTimestamp,
        Truthy(if mapa != Undefined then mapa else Get(ChartOrEmpty(s, uid), "mapa")),
        Or(Get(ChartOrEmpty(s, uid), "error"), Null)))
  {
    CompletedRun(s, uid, data, mapa);
    CompletedView(ChartOrEmpty(s, uid), data, mapa);
  }

  /**
   * Two completed submissions by one user leave one chart document holding
   * every defined field of the later run, and two success notifications.
   */
  lemma LatestSubmissionWins(s: StoreState, uid: Uid, d1: BirthData, m1: Value, d2: BirthData, m2: Value)
    ensures var mid := Replay(s, RunWrites(uid, d1, Calculated(m1), Completed));
      var after := Replay(mid, RunWrites(uid, d2, Calculated(m2), Completed));
      && Chart(after, uid).Some?
      && Get(Chart(after, uid).value, "status") == Str("completed")
      && (forall k :: Get(ChartValues(d2, m2), k) != Undefined ==> Get(Chart(after, uid).value, k) == Get(ChartValues(d2, m2), k))
      && Log(after, uid) == Log(s, uid) + [ChartReadyNotification, ChartReadyNotification]
  {
    var mid := Replay(s, RunWrites(uid, d1, Calculated(m1), Completed));
    CompletedRun(s, uid, d1, m1);
    CompletedRun(mid, uid, d2, m2);
    assert Get(ChartValues(d2, m2), "status") == Str("completed");
  }
}
