/**
 * The two document collections routes/mapa-astral.js writes, for every user:
 * the single chart document `users/{uid}/mapa_astral/data`, written by merge
 * (`fireSet`), and the notification collection `users/{uid}/notifications`,
 * appended to (`fireAdd`). Any write may fail; a failed write changes nothing.
 */
module Store {
  import opened Wrappers
  import opened JsValues
  import opened Auth

  /** A stored document: field name to value. */
  type Document = map<string, Value>

  /** `doc.field`: `undefined` when the field is absent. */
  function Get(doc: Document, field: string): Value
  {
    if field in doc then doc[field] else Undefined
  }

  /**
   * `set(values, { merge: true })` with `ignoreUndefinedProperties` set (firebase.js:69-71):
   * every defined field of `values` overwrites the document's, undefined ones are
   * skipped, and the document's other fields stay.
   */
  function Merge(doc: Document, values: Document): (r: Document)
    ensures forall k :: Get(r, k) == if Get(values, k) != Undefined then Get(values, k) else Get(doc, k)
    ensures forall k :: k in r <==> k in doc || Get(values, k) != Undefined
  {
    doc + map k | k in values && values[k] != Undefined :: values[k]
  }

  /** The `type` field of a notification. */
  datatype NoticeType = SuccessType | ErrorType

  /** Which of the routes' three notifications a record is; their titles and messages are fixed texts. */
  datatype Notice = ChartReady | ChartFailed | SystemFailure
  {
    function Type(): NoticeType
    {
      if this == ChartReady then SuccessType else ErrorType
    }
  }

  datatype Notification = Notification(notice: Notice, read: bool, createdAt: Value)

  /** A write that reached the store. */
  datatype Write =
    | SetChart(uid: Uid, values: Document)
    | AddNotification(uid: Uid, notification: Notification)

  /** The store's contents, as far as these routes see it. */
  datatype StoreState = StoreState(charts: map<Uid, Document>, notifications: map<Uid, seq<Notification>>)

  /** The chart document of `uid`, if it exists. */
  function Chart(s: StoreState, uid: Uid): Option<Document>
  {
    if uid in s.charts then Some(s.charts[uid]) else None
  }

  /** The chart document of `uid`, or an empty one: what a merge starts from. */
  function ChartOrEmpty(s: StoreState, uid: Uid): Document
  {
    if uid in s.charts then s.charts[uid] else map[]
  }

  /** The notifications of `uid`, oldest first. */
  function Log(s: StoreState, uid: Uid): seq<Notification>
  {
    if uid in s.notifications then s.notifications[uid] else []
  }

  function Apply(s: StoreState, w: Write): StoreState
  {
    match w
    case SetChart(uid, values) => s.(charts := s.charts[uid := Merge(ChartOrEmpty(s, uid), values)])
    case AddNotification(uid, n) => s.(notifications := s.notifications[uid := Log(s, uid) + [n]])
  }

  /** The store after the writes `ws`, in order. */
  function Replay(s: StoreState, ws: seq<Write>): StoreState
    decreases ws
  {
    if ws == [] then s else Replay(Apply(s, ws[0]), ws[1..])
  }

  /** The notifications that `ws` adds for `uid`, in order. */
  function NotificationsFor(ws: seq<Write>, uid: Uid): seq<Notification>
  {
    if ws == [] then []
    else (if ws[0].AddNotification? && ws[0].uid == uid then [ws[0].notification] else []) + NotificationsFor(ws[1..], uid)
  }

  /** The values that `ws` merges into the chart of `uid`, in order. */
  function ChartWritesFor(ws: seq<Write>, uid: Uid): seq<Document>
  {
    if ws == [] then []
    else (if ws[0].SetChart? && ws[0].uid == uid then [ws[0].values] else []) + ChartWritesFor(ws[1..], uid)
  }

  /** A document after successive merges. */
  function MergeAll(doc: Document, vs: seq<Document>): Document
    decreases vs
  {
    if vs == [] then doc else MergeAll(Merge(doc, vs[0]), vs[1..])
  }

  /** Replaying writes only appends to a user's notifications: exactly the ones addressed to that user. */
  lemma {:induction false} ReplayLog(s: StoreState, ws: seq<Write>, uid: Uid)
    ensures Log(Replay(s, ws), uid) == Log(s, uid) + NotificationsFor(ws, uid)
    decreases ws
  {
    if ws != [] {
      ReplayLog(Apply(s, ws[0]), ws[1..], uid);
    }
  }

  /** Replaying writes merges into a user's chart exactly the values addressed to it; latest write wins. */
  lemma {:induction false} ReplayChart(s: StoreState, ws: seq<Write>, uid: Uid)
    ensures Chart(Replay(s, ws), uid) ==
      if ChartWritesFor(ws, uid) == [] then Chart(s, uid) else Some(MergeAll(ChartOrEmpty(s, uid), ChartWritesFor(ws, uid)))
    decreases ws
  {
    if ws != [] {
      var s' := Apply(s, ws[0]);
      var rest := ChartWritesFor(ws[1..], uid);
      ReplayChart(s', ws[1..], uid);
      if ws[0].SetChart? && ws[0].uid == uid {
        var merged := Merge(ChartOrEmpty(s, uid), ws[0].values);
        assert ChartOrEmpty(s', uid) == merged && Chart(s', uid) == Some(merged);
        var all := ChartWritesFor(ws, uid);
        assert all == [ws[0].values] + rest;
        assert all[0] == ws[0].values && all[1..] == rest;
        assert MergeAll(ChartOrEmpty(s, uid), all) == MergeAll(merged, rest);
        assert rest == [] ==> MergeAll(merged, rest) == merged;
      } else {
        assert ChartOrEmpty(s', uid) == ChartOrEmpty(s, uid) && Chart(s', uid) == Chart(s, uid);
        assert ChartWritesFor(ws, uid) == rest;
      }
    }
  }

  lemma {:induction false} ReplayConcat(s: StoreState, a: seq<Write>, b: seq<Write>)
    ensures Replay(s, a + b) == Replay(Replay(s, a), b)
    decreases a
  {
    if a != [] {
      assert (a + b)[1..] == a[1..] + b;
      ReplayConcat(Apply(s, a[0]), a[1..], b);
    } else {
      assert a + b == b;
    }
  }

  /** An observable action of a request handler: a reply sent to the client, or a write that reached the store. */
  datatype Effect = Reply(code: int) | Persist(write: Write)

  function AsEffects(ws: seq<Write>): (es: seq<Effect>)
    ensures |es| == |ws| && forall i :: 0 <= i < |ws| ==> es[i] == Persist(ws[i])
  {
    if ws == [] then [] else [Persist(ws[0])] + AsEffects(ws[1..])
  }

  /** The store writes among `effects`, in order. */
  function Persisted(effects: seq<Effect>): seq<Write>
  {
    if effects == [] then []
    else (if effects[0].Persist? then [effects[0].write] else []) + Persisted(effects[1..])
  }

  /** How a read of the chart document ends: the store fails with a message, or the document is absent or present. */
  datatype ReadResult = ReadFailed(message: string) | Missing | Found(doc: Document)

  /** A successful read of the chart of `uid`. */
  function ReadOf(s: StoreState, uid: Uid): ReadResult
  {
    if uid in s.charts then Found(s.charts[uid]) else Missing
  }

  /** The document store behind `db`, restricted to the collections the routes use. */
  class Db {
    var charts: map<Uid, Document>
    var notifications: map<Uid, seq<Notification>>
    /**
     * The actions taken so far, in the order they were taken: the writes that
     * reached the store and the replies sent (see `Respond`). It exists only to
     * state the order of actions.
     */
    ghost var trace: seq<Effect>

    function State(): StoreState
      reads this
    {
      StoreState(charts, notifications)
    }

    constructor ()
      ensures State() == StoreState(map[], map[]) && trace == []
    {
      charts := map[];
      notifications := map[];
      trace := [];
    }

    /** `res.status(code).json(...)`: sending the reply, recorded in the trace; the store is untouched. */
    method Respond(code: int)
      modifies this
      ensures State() == old(State())
      ensures trace == old(trace) + [Reply(code)]
    {
      trace := trace + [Reply(code)];
    }

    /**
     * Lines 113-122 for the chart document: merge `values` into
     * `users/{uid}/mapa_astral/data`, or fail and change nothing.
     */
    method FireSet(uid: Uid, values: Document) returns (ok: bool)
      modifies this
      ensures State() == if ok then Apply(old(State()), SetChart(uid, values)) else old(State())
      ensures notifications == old(notifications)
      ensures forall u :: u != uid ==> Chart(State(), u) == Chart(old(State()), u)
      ensures ok ==> uid in charts && charts[uid] == Merge(ChartOrEmpty(old(State()), uid), values)
      ensures trace == old(trace) + if ok then [Persist(SetChart(uid, values))] else []
    {
      ok :| true;
      if ok {
        charts := charts[uid := Merge(ChartOrEmpty(State(), uid), values)];
        trace := trace + [Persist(SetChart(uid, values))];
      }
    }

    /**
     * Lines 133-142 for the notification collection: append `n` to
     * `users/{uid}/notifications`, or fail and change nothing.
     */
    method FireAdd(uid: Uid, n: Notification) returns (ok: bool)
      modifies this
      ensures State() == if ok then Apply(old(State()), AddNotification(uid, n)) else old(State())
      ensures charts == old(charts)
      ensures forall u :: u != uid ==> Log(State(), u) == Log(old(State()), u)
      ensures Log(State(), uid) == Log(old(State()), uid) + (if ok then [n] else [])
      ensures trace == old(trace) + if ok then [Persist(AddNotification(uid, n))] else []
    {
      ok :| true;
      if ok {
        notifications := notifications[uid := Log(State(), uid) + [n]];
        trace := trace + [Persist(AddNotification(uid, n))];
      }
    }

    /** `db.collection('users').doc(uid).collection('mapa_astral').doc('data').get()` (line 274). */
    method ReadChart(uid: Uid) returns (r: ReadResult)
      ensures r.ReadFailed? || r == ReadOf(State(), uid)
    {
      var fails: bool :| true;
      if fails {
        var message: string :| true;
        r := ReadFailed(message);
      } else {
        r := ReadOf(State(), uid);
      }
    }
  }
}
