// The durable outbox of staged chat inputs: what can be staged, dispatched and
// cancelled, in any order of transactions.
module PendingInputs {
  import opened Options

  type Id = string

  // A row of pending_chat_inputs.
  datatype Staged = Staged(
    session: string,
    scope: string,
    request: string,
    message: string,
    fingerprint: string,
    payload: string,
    position: int,
    revision: int)

  // A row of pending_chat_input_dispatch_receipts.
  datatype Receipt = Receipt(session: string, scope: string, request: string, message: string, fingerprint: string)

  // The unique key of turn_ingress_receipts.
  datatype TurnKey = TurnKey(scope: string, session: string, request: string)

  datatype Result<T> =
    | Ok(value: T)
    | Invalid
    | NotFound
    | Conflict
    | AlreadyDispatched
    | Cancelled
    | AtCapacity
    | TurnConflict

  datatype Enqueued = Enqueued(row: Staged, replayed: bool)

  // The staged input that an accepted turn consumes, as the caller last saw it.
  datatype Consumed = Consumed(id: Id, fingerprint: string, revision: int)

  datatype Dispatch = Dispatch(id: Id, receipt: Receipt)

  const MAX_PENDING: nat := 5

  // ---------------------------------------------------------------- identities

  function KeyOf(r: Receipt): TurnKey { TurnKey(r.scope, r.session, r.request) }

  function ReceiptOf(s: Staged): Receipt { Receipt(s.session, s.scope, s.request, s.message, s.fingerprint) }

  // The two unique indexes of the dispatch receipts.
  predicate SameDispatch(a: Receipt, b: Receipt) {
    KeyOf(a) == KeyOf(b) || (a.session == b.session && a.message == b.message)
  }

  // The two unique indexes of the staged rows.
  predicate SameStaged(a: Staged, b: Staged) {
    a.session == b.session && (a.request == b.request || a.message == b.message)
  }

  predicate WellNamed(id: Id, s: Staged) {
    && 0 < |id| <= 256 && 0 < |s.request| <= 256 && 0 < |s.message| <= 256
    && 0 < |s.session| <= 512 && 0 < |s.scope| <= 256 && s.fingerprint != ""
  }

  predicate AreNamed(id: Id, r: Receipt) {
    "" !in {id, r.session, r.scope, r.request, r.message, r.fingerprint}
  }

  // The receipt is there, and the id is not that of another.
  predicate IsReplay(dispatched: map<Id, Receipt>, id: Id, r: Receipt) {
    exists i <- dispatched :: dispatched[i] == r && (id in dispatched ==> id == i)
  }

  // No receipt has the id, the request or the message.
  predicate Undispatched(dispatched: map<Id, Receipt>, id: Id, row: Staged) {
    && id !in dispatched
    && forall i <- dispatched | dispatched[i].session == row.session ::
         dispatched[i].message != row.message
         && (dispatched[i].scope == row.scope ==> dispatched[i].request != row.request)
  }

  // Nor has a row of any table.
  predicate IsNew(pending: map<Id, Staged>, cancelled: map<Id, string>, dispatched: map<Id, Receipt>, id: Id,
      row: Staged)
  {
    && Undispatched(dispatched, id, row) && id !in cancelled && id !in pending
    && forall i <- pending | pending[i].session == row.session ::
         pending[i].request != row.request && pending[i].message != row.message
  }

  // So the lookups find nothing.
  lemma LookupsAgree(pending: map<Id, Staged>, cancelled: map<Id, string>, dispatched: map<Id, Receipt>, id: Id,
      row: Staged)
    ensures Undispatched(dispatched, id, row) <==> FindReceipts(dispatched, id, ReceiptOf(row)) == {}
    ensures IsNew(pending, cancelled, dispatched, id, row) <==>
      FindReceipts(dispatched, id, ReceiptOf(row)) == {} && id !in cancelled && FindStaged(pending, id, row) == {}
  {
    ReceiptLookupAgrees(dispatched, id, row);
    StagedLookupAgrees(pending, id, row);
    hide Undispatched, FindReceipts, FindStaged;
  }

  lemma ReceiptLookupAgrees(dispatched: map<Id, Receipt>, id: Id, row: Staged)
    ensures Undispatched(dispatched, id, row) <==> FindReceipts(dispatched, id, ReceiptOf(row)) == {}
  {
    if Undispatched(dispatched, id, row) {
    } else {
      var i :| i in dispatched && (i == id || SameDispatch(dispatched[i], ReceiptOf(row)));
      assert i in FindReceipts(dispatched, id, ReceiptOf(row));
    }
  }

  lemma StagedLookupAgrees(pending: map<Id, Staged>, id: Id, row: Staged)
    ensures FindStaged(pending, id, row) == {} <==>
      id !in pending && forall i <- pending | pending[i].session == row.session ::
        pending[i].request != row.request && pending[i].message != row.message
  {
    if i :| i in pending && (i == id || SameStaged(pending[i], row)) {
      assert i in FindStaged(pending, id, row);
    }
  }

  // The receipts that a lookup by id, request or message finds.
  function FindReceipts(dispatched: map<Id, Receipt>, id: Id, r: Receipt): set<Id> {
    set i | i in dispatched && (i == id || SameDispatch(dispatched[i], r))
  }

  function FindStaged(pending: map<Id, Staged>, id: Id, s: Staged): set<Id> {
    set i | i in pending && (i == id || SameStaged(pending[i], s))
  }

  function OfSession(pending: map<Id, Staged>, session: string): set<Id> {
    set i | i in pending && pending[i].session == session
  }

  // The position after the last of the session's rows: COALESCE(MAX(position), -1) + 1.
  ghost predicate IsNextPosition(pending: map<Id, Staged>, session: string, position: int) {
    && (forall i <- OfSession(pending, session) :: pending[i].position < position)
    && (OfSession(pending, session) == {} ==> position == 0)
    && (OfSession(pending, session) != {} ==>
          exists i <- OfSession(pending, session) :: pending[i].position == position - 1)
  }

  method NextPosition(pending: map<Id, Staged>, session: string) returns (position: int)
    ensures IsNextPosition(pending, session, position)
  {
    var rest := OfSession(pending, session);
    if rest == {} { return 0; }
    var first :| first in rest;
    var top := pending[first].position;
    ghost var best := first;
    while rest != {}
      invariant rest <= OfSession(pending, session)
      invariant best in OfSession(pending, session) && pending[best].position == top
      invariant forall i <- OfSession(pending, session) - rest :: pending[i].position <= top
      decreases |rest|
    {
      var i :| i in rest;
      if top < pending[i].position {
        top := pending[i].position;
        best := i;
      }
      rest := rest - {i};
    }
    return top + 1;
  }

  // ---------------------------------------------------------------- reordering

  function Ids(order: seq<(Id, int)>): set<Id> { set k | 0 <= k < |order| :: order[k].0 }

  // What the caller supplies: some rows, each once, at plausible revisions.
  predicate WellOrdered(order: seq<(Id, int)>) {
    && 2 <= |order| <= MAX_PENDING
    && (forall k :: 0 <= k < |order| ==> 0 < |order[k].0| <= 256 && order[k].1 >= 1)
    && (forall j, k :: 0 <= j < k < |order| ==> order[j].0 != order[k].0)
  }

  // From two rows to five, each named once.
  predicate IsPlausible(order: seq<(Id, int)>) {
    && |order| in {2, 3, 4, 5}
    && (forall k :: 0 <= k < |order| ==> 1 <= |order[k].0| <= 256 && 1 <= order[k].1)
    && forall j, k :: 0 <= j < |order| && 0 <= k < |order| && order[j].0 == order[k].0 ==> j == k
  }

  lemma WellOrderedIsPlausible(order: seq<(Id, int)>)
    ensures WellOrdered(order) <==> IsPlausible(order)
  {
  }

  // They are all of the session's rows, as they stand.
  predicate MayReorder(pending: map<Id, Staged>, session: string, order: seq<(Id, int)>) {
    && IsPlausible(order)
    && (forall i <- pending :: pending[i].session == session <==> exists k :: 0 <= k < |order| && order[k].0 == i)
    && forall k :: 0 <= k < |order| ==> order[k].0 in pending && pending[order[k].0].revision == order[k].1
  }

  // The session's rows stand in the order given, every other row as before.
  ghost predicate IsReordering(before: map<Id, Staged>, after: map<Id, Staged>, session: string,
      order: seq<(Id, int)>)
  {
    && after.Keys == before.Keys
    && (forall k :: 0 <= k < |order| ==>
          && order[k].0 in before
          && after[order[k].0] == before[order[k].0].(position := k, revision := before[order[k].0].revision + 1))
    && (forall i <- before :: before[i].session != session ==> after[i] == before[i])
  }

  lemma OfSessionIs(pending: map<Id, Staged>, session: string)
    ensures forall i :: i in OfSession(pending, session) <==> i in pending && pending[i].session == session
  {
  }

  // ---------------------------------------------------------------- the tables

  // The unique indexes hold, and no identity is staged after it was dispatched.
  ghost predicate Unique(pending: map<Id, Staged>, dispatched: map<Id, Receipt>) {
    && (forall i, j :: i in pending && j in pending && i != j ==> !SameStaged(pending[i], pending[j]))
    && (forall i, j :: i in dispatched && j in dispatched && i != j ==> !SameDispatch(dispatched[i], dispatched[j]))
    && (forall i, j :: i in pending && j in dispatched ==> !SameDispatch(dispatched[j], ReceiptOf(pending[i])))
  }

  // No session holds more than it may.
  ghost predicate Capped(pending: map<Id, Staged>) {
    forall session :: |OfSession(pending, session)| <= MAX_PENDING
  }

  // And no id is in two of the tables, and no position below 0.
  ghost predicate Orderly(pending: map<Id, Staged>, cancelled: map<Id, string>, dispatched: map<Id, Receipt>) {
    && Unique(pending, dispatched) && Capped(pending)
    && (forall i <- pending :: pending[i].position >= 0)
    && pending.Keys !! dispatched.Keys && pending.Keys !! cancelled.Keys && cancelled.Keys !! dispatched.Keys
  }

  // Every dispatch left its receipt, and every receipt belongs to an accepted turn.
  ghost predicate Recorded(dispatched: map<Id, Receipt>, turns: map<TurnKey, string>, log: seq<Dispatch>) {
    && (forall i <- dispatched :: KeyOf(dispatched[i]) in turns)
    && (forall k :: 0 <= k < |log| ==> log[k].id in dispatched && dispatched[log[k].id] == log[k].receipt)
    && (forall k, l :: 0 <= k < l < |log| ==> log[k].id != log[l].id)
    && (forall i <- dispatched :: exists k :: 0 <= k < |log| && log[k].id == i)
  }

  // The input was dispatched with this turn, under this fingerprint.
  predicate DispatchedAs(dispatched: map<Id, Receipt>, c: Consumed, key: TurnKey) {
    && c.id in dispatched
    && dispatched[c.id] == Receipt(key.session, key.scope, key.request, dispatched[c.id].message, c.fingerprint)
  }

  // The input is staged for this turn, as the caller last saw it.
  predicate StandsAs(pending: map<Id, Staged>, c: Consumed, key: TurnKey, message: string) {
    && c.id in pending && message in {"", pending[c.id].message}
    && pending[c.id] == Staged(key.session, key.scope, key.request, pending[c.id].message, c.fingerprint,
                               pending[c.id].payload, pending[c.id].position, c.revision)
  }

  lemma FieldByField(pending: map<Id, Staged>, dispatched: map<Id, Receipt>, c: Consumed, key: TurnKey, message: string)
    ensures DispatchedAs(dispatched, c, key) <==>
      c.id in dispatched && KeyOf(dispatched[c.id]) == key && dispatched[c.id].fingerprint == c.fingerprint
    ensures StandsAs(pending, c, key, message) <==>
      && c.id in pending && KeyOf(ReceiptOf(pending[c.id])) == key && pending[c.id].fingerprint == c.fingerprint
      && pending[c.id].revision == c.revision && (message == "" || message == pending[c.id].message)
  {
  }

  // The request of a staged row was accepted without it.
  predicate Stuck(row: Staged, turns: map<TurnKey, string>) { KeyOf(ReceiptOf(row)) in turns }

  class Outbox {
    var pending: map<Id, Staged>
    var cancelled: map<Id, string>
    var dispatched: map<Id, Receipt>
    var turns: map<TurnKey, string>
    // Every id that was ever inserted, and every dispatch, in order.
    ghost var staged: set<Id>
    ghost var log: seq<Dispatch>

    ghost predicate Valid()
      reads this
    {
      && Orderly(pending, cancelled, dispatched)
      && Recorded(dispatched, turns, log)
      // What was staged is pending, dispatched or cancelled, and nothing else is
      // pending or dispatched.
      && staged == pending.Keys + dispatched.Keys + (staged * cancelled.Keys)
    }

    twostate predicate Unchanged()
      reads this
    {
      && pending == old(pending) && cancelled == old(cancelled) && dispatched == old(dispatched)
      && turns == old(turns) && staged == old(staged) && log == old(log)
    }

    constructor ()
      ensures Valid() && pending == map[] && cancelled == map[] && dispatched == map[] && turns == map[]
      ensures staged == {} && log == []
    {
      pending, cancelled, dispatched, turns := map[], map[], map[], map[];
      staged, log := {}, [];
    }

    // enqueue_pending_chat_input. position is what the caller asks for, if anything.
    method Enqueue(id: Id, row: Staged, position: Option<int>) returns (r: Result<Enqueued>)
      requires Valid() && row.revision == 1
      modifies this
      ensures Valid()
      // What is new and fits is staged, and nothing else.
      ensures r.Ok? && !r.value.replayed <==>
        && WellNamed(id, row) && IsNew(old(pending), old(cancelled), old(dispatched), id, row)
        && |OfSession(old(pending), row.session)| < 5 && (position.Some? ==> position.value >= 0)
      ensures r.Ok? && !r.value.replayed ==>
        && r.value.row == row.(position := r.value.row.position)
        && (if position.Some? then r.value.row.position == position.value
            else IsNextPosition(old(pending), row.session, r.value.row.position))
        && pending == old(pending)[id := r.value.row] && staged == old(staged) + {id} && id !in old(staged)
        && cancelled == old(cancelled) && dispatched == old(dispatched) && turns == old(turns) && log == old(log)
      ensures !(r.Ok? && !r.value.replayed) ==> Unchanged()
      // A repeated enqueue finds its own row, wherever it was moved since.
      ensures r.Ok? && r.value.replayed <==>
        && WellNamed(id, row) && id in old(pending)
        && row == old(pending)[id].(position := row.position, revision := row.revision)
      ensures r.Ok? && r.value.replayed ==> r.value.row == pending[id]
      // It learns what became of the row, too.
      ensures r == AlreadyDispatched <==>
        && WellNamed(id, row) && id in old(dispatched)
        && old(dispatched)[id] == Receipt(row.session, row.scope, row.request, row.message, row.fingerprint)
      ensures r == Cancelled <==>
        && WellNamed(id, row) && Undispatched(old(dispatched), id, row)
        && id in old(cancelled) && old(cancelled)[id] == row.session
      ensures r == AtCapacity <==>
        && WellNamed(id, row) && IsNew(old(pending), old(cancelled), old(dispatched), id, row)
        && |OfSession(old(pending), row.session)| == 5
      ensures r == Invalid <==>
        || !WellNamed(id, row)
        || (&& IsNew(old(pending), old(cancelled), old(dispatched), id, row) && position.Some? && position.value < 0
            && |OfSession(old(pending), row.session)| < 5)
      ensures r.Ok? || r in {AlreadyDispatched, Cancelled, AtCapacity, Invalid, Conflict}
    {
      if id == "" || row.session == "" || row.scope == "" || row.request == "" || row.message == ""
         || row.fingerprint == "" {
        return Invalid;
      }
      if |id| > 256 || |row.request| > 256 || |row.message| > 256 || |row.session| > 512 || |row.scope| > 256 {
        return Invalid;
      }
      assert WellNamed(id, row);
      hide Orderly, Recorded, IsNextPosition, OfSession, FindReceipts, FindStaged, WellNamed, IsNew, Undispatched;
      LookupsAgree(pending, cancelled, dispatched, id, row);
      NotBoth(pending, cancelled, dispatched, id);
      if id in pending { RepeatIsFound(pending, cancelled, dispatched, id, row); }
      ReceiptFound(pending, cancelled, dispatched, id, ReceiptOf(row));
      var receipts := FindReceipts(dispatched, id, ReceiptOf(row));
      if receipts != {} {
        var exact := receipts == {id} && dispatched[id] == ReceiptOf(row);
        return if exact then AlreadyDispatched else Conflict;
      }
      if id in cancelled {
        return if cancelled[id] == row.session then Cancelled else Conflict;
      }
      StagedFound(pending, id, row);
      var matches := FindStaged(pending, id, row);
      if matches != {} {
        var exact := matches == {id} && row == pending[id].(position := row.position, revision := row.revision);
        return if exact then Ok(Enqueued(pending[id], true)) else Conflict;
      }
      if |OfSession(pending, row.session)| >= MAX_PENDING {
        Bounded(pending, cancelled, dispatched, row.session);
        return AtCapacity;
      }
      var at;
      if position.Some? { at := position.value; } else { at := NextPosition(pending, row.session); }
      if position.None? { NextIsNatural(pending, cancelled, dispatched, row.session, at); }
      if at < 0 { return Invalid; }
      var inserted := row.(position := at);
      InsertKeepsOrder(pending, cancelled, dispatched, id, row, at);
      pending := pending[id := inserted];
      staged := staged + {id};
      return Ok(Enqueued(inserted, false));
    }

    // The statements that dispatch a staged input with its turn.
    method Consume(id: Id, fingerprint: string)
      requires Valid() && id in pending && !Stuck(pending[id], turns)
      modifies this
      ensures Valid()
      ensures turns == old(turns)[KeyOf(ReceiptOf(old(pending)[id])) := fingerprint]
      ensures cancelled == old(cancelled) && staged == old(staged)
      ensures pending == old(pending) - {id}
      ensures dispatched == old(dispatched)[id := ReceiptOf(old(pending)[id])]
      ensures log == old(log) + [Dispatch(id, ReceiptOf(old(pending)[id]))]
    {
      hide Orderly, Recorded;
      var receipt := ReceiptOf(pending[id]);
      NotBoth(pending, cancelled, dispatched, id);
      DispatchKeepsOrder(pending, cancelled, dispatched, id);
      DispatchIsRecorded(dispatched, turns, log, id, receipt, fingerprint);
      StagedWhenMoved(staged, pending.Keys, dispatched.Keys, cancelled.Keys, id);
      turns := turns[KeyOf(receipt) := fingerprint];
      dispatched := dispatched[id := receipt];
      pending := pending - {id};
      log := log + [Dispatch(id, receipt)];
    }

    // accept_turn: the turn's receipt, and with it the dispatch of a staged input.
    method AcceptTurn(key: TurnKey, fingerprint: string, consumed: Option<Consumed>, message: string)
      returns (r: Result<bool>)
      requires Valid()
      modifies this
      ensures Valid()
      ensures r.Ok? && !r.value ==>
        && key !in old(turns) && turns == old(turns)[key := fingerprint]
        && cancelled == old(cancelled) && staged == old(staged)
        && (consumed.None? ==> pending == old(pending) && dispatched == old(dispatched) && log == old(log))
        && (consumed.Some? ==>
              var id := consumed.value.id;
              && id in old(pending) && KeyOf(ReceiptOf(old(pending)[id])) == key
              && old(pending)[id].revision == consumed.value.revision
              && old(pending)[id].fingerprint == consumed.value.fingerprint
              && pending == old(pending) - {id}
              && dispatched == old(dispatched)[id := ReceiptOf(old(pending)[id])]
              && log == old(log) + [Dispatch(id, ReceiptOf(old(pending)[id]))])
      // A repeated request changes nothing, and succeeds exactly for the same turn and the
      // input it was dispatched with.
      ensures r != Ok(false) ==> Unchanged()
      ensures r == Ok(true) <==>
        && key in old(turns) && old(turns)[key] == fingerprint
        && (consumed.Some? ==> DispatchedAs(old(dispatched), consumed.value, key))
      // A new one is accepted exactly when the staged input it names, if any, is there as
      // named; if the request was already accepted without the input, it never is.
      ensures r == Ok(false) <==>
        key !in old(turns) && (consumed.Some? ==> StandsAs(old(pending), consumed.value, key, message))
      ensures r == TurnConflict <==> key in old(turns) && old(turns)[key] != fingerprint
      ensures r == NotFound <==> key !in old(turns) && consumed.Some? && consumed.value.id !in old(pending)
      ensures r.Ok? || r in {TurnConflict, NotFound, Conflict}
      ensures forall i <- old(pending) :: Stuck(old(pending)[i], old(turns)) ==>
                i in pending && pending[i] == old(pending)[i]
    {
      if consumed.Some? {
        NotBoth(pending, cancelled, dispatched, consumed.value.id);
        FieldByField(pending, dispatched, consumed.value, key, message);
      }
      hide Orderly, Recorded, Stuck, StandsAs, DispatchedAs;
      if key in turns {
        if turns[key] != fingerprint { return TurnConflict; }
        if consumed.Some? {
          var id := consumed.value.id;
          if id !in dispatched || KeyOf(dispatched[id]) != key
             || dispatched[id].fingerprint != consumed.value.fingerprint {
            return Conflict;
          }
        }
        return Ok(true);
      }
      if consumed.None? {
        TurnIsRecorded(dispatched, turns, log, key, fingerprint);
        turns := turns[key := fingerprint];
        return Ok(false);
      }
      var id := consumed.value.id;
      if id !in pending { return NotFound; }
      var row := pending[id];
      if KeyOf(ReceiptOf(row)) != key || row.fingerprint != consumed.value.fingerprint { return Conflict; }
      if row.revision != consumed.value.revision { return Conflict; }
      if message != "" && message != row.message { return Conflict; }
      StuckIsAnother(pending, turns, id);
      Consume(id, fingerprint);
      return Ok(false);
    }

    // cancel_pending_chat_input: an id nobody staged yet is cancelled for good, too.
    method Cancel(id: Id, session: string, expected: Option<int>) returns (r: Result<bool>)
      requires Valid()
      modifies this
      ensures Valid()
      ensures dispatched == old(dispatched) && turns == old(turns) && log == old(log) && staged == old(staged)
      ensures !r.Ok? ==> Unchanged()
      ensures r == Ok(true) ==>
        && id in old(pending) && old(pending)[id].session == session
        && pending == old(pending) - {id} && cancelled == old(cancelled)[id := session]
      ensures r == Ok(false) ==>
        && id !in old(pending) && pending == old(pending)
        && if id in old(dispatched) then old(dispatched)[id].session == session && cancelled == old(cancelled)
           else cancelled == old(cancelled)[id := session] && (id in old(cancelled) ==> old(cancelled)[id] == session)
      // Refused for another session or another revision, and for nothing else.
      ensures r.Ok? <==>
        && (expected.Some? ==> expected.value >= 1)
        && if id in old(pending) then
             old(pending)[id].session == session && (expected.Some? ==> old(pending)[id].revision == expected.value)
           else if id in old(dispatched) then old(dispatched)[id].session == session
           else id in old(cancelled) ==> old(cancelled)[id] == session
      ensures r == Invalid <==> expected.Some? && expected.value < 1
      ensures r.Ok? || r in {Invalid, Conflict}
    {
      hide Orderly, Recorded;
      if expected.Some? && expected.value < 1 { return Invalid; }
      NotBoth(pending, cancelled, dispatched, id);
      StagedWhenMoved(staged, pending.Keys, dispatched.Keys, cancelled.Keys, id);
      if id !in pending {
        if id in dispatched { return if dispatched[id].session == session then Ok(false) else Conflict; }
        if id in cancelled { return if cancelled[id] == session then Ok(false) else Conflict; }
        CancelKeepsOrder(pending, cancelled, dispatched, id, session);
        assert pending - {id} == pending;
        cancelled := cancelled[id := session];
        return Ok(false);
      }
      if pending[id].session != session { return Conflict; }
      if expected.Some? && pending[id].revision != expected.value { return Conflict; }
      CancelKeepsOrder(pending, cancelled, dispatched, id, session);
      cancelled := cancelled[id := session];
      pending := pending - {id};
      return Ok(true);
    }

    // consume_replayed_pending_chat_input: there is never a stale row left to consume.
    method ConsumeReplayed(id: Id, r: Receipt, expected: int) returns (o: Result<bool>)
      requires Valid()
      ensures o.Ok? <==> expected >= 1 && AreNamed(id, r) && IsReplay(dispatched, id, r) && id !in pending
      ensures o.Ok? ==> !o.value
      ensures o == Invalid <==> expected < 1 || !AreNamed(id, r)
      ensures o.Ok? || o in {Invalid, Conflict}
    {
      if id == "" || r.session == "" || r.scope == "" || r.request == "" || r.message == "" || r.fingerprint == "" {
        return Invalid;
      }
      if expected < 1 { return Invalid; }
      ReceiptFound(pending, cancelled, dispatched, id, r);
      ReplayFound(pending, cancelled, dispatched, id, r);
      hide Orderly, Recorded, FindReceipts, IsReplay;
      var receipts := FindReceipts(dispatched, id, r);
      if |receipts| != 1 { return Conflict; }
      var i :| i in receipts;
      assert receipts == {i} by { OneElement(receipts, i); }
      if dispatched[i] != r { return Conflict; }
      if id in pending {
        var row := pending[id];
        if ReceiptOf(row) != r || row.revision != expected { return Conflict; }
        StaleRowIsNone(pending, cancelled, dispatched, id, i);
      }
      return Ok(false);
    }

    // update_pending_chat_input
    method Move(id: Id, session: string, expected: int, position: int) returns (r: Result<Staged>)
      requires Valid()
      modifies this
      ensures Valid()
      ensures r.Ok? <==>
        && expected >= 1 && position >= 0 && id in old(pending)
        && old(pending)[id].session == session && old(pending)[id].revision == expected
      ensures r.Ok? ==>
        && r.value == old(pending)[id].(position := position, revision := expected + 1)
        && pending == old(pending)[id := r.value]
      ensures !r.Ok? ==> pending == old(pending)
      ensures r == Invalid <==> expected < 1 || position < 0
      ensures r == NotFound <==> expected >= 1 && position >= 0 && id !in old(pending)
      ensures r.Ok? || r in {Invalid, NotFound, Conflict}
      ensures cancelled == old(cancelled) && dispatched == old(dispatched) && turns == old(turns)
      ensures staged == old(staged) && log == old(log)
    {
      if expected < 1 || position < 0 { return Invalid; }
      if id !in pending { return NotFound; }
      var row := pending[id];
      if row.session != session || row.revision != expected { return Conflict; }
      var moved := row.(position := position, revision := row.revision + 1);
      PositionsAreNatural(pending, cancelled, dispatched);
      RenumberKeepsOrder(pending, pending[id := moved], cancelled, dispatched);
      hide Orderly, Recorded;
      pending := pending[id := moved];
      return Ok(moved);
    }

    // reorder_pending_chat_inputs: all of a session's rows at once, or none.
    method Reorder(session: string, order: seq<(Id, int)>) returns (r: Result<()>)
      requires Valid()
      modifies this
      ensures Valid()
      ensures r.Ok? ==> IsReordering(old(pending), pending, session, order)
      ensures !r.Ok? ==> pending == old(pending)
      ensures r.Ok? <==> MayReorder(old(pending), session, order)
      ensures r == Invalid <==> !IsPlausible(order)
      ensures r.Ok? || r in {Invalid, Conflict}
      ensures cancelled == old(cancelled) && dispatched == old(dispatched) && turns == old(turns)
      ensures staged == old(staged) && log == old(log)
    {
      hide Orderly, Recorded, OfSession, Ids, WellOrdered, IsPlausible;
      WellOrderedIsPlausible(order);
      if !WellOrdered(order) { return Invalid; }
      OfSessionIs(pending, session);
      IdsAre(order);
      if OfSession(pending, session) != Ids(order) {
        if MayReorder(pending, session, order) { MayReorderIsAll(pending, session, order); }
        return Conflict;
      }
      if k :| 0 <= k < |order| && pending[order[k].0].revision != order[k].1 { return Conflict; }
      var after := Renumber(pending, order);
      PositionsAreNatural(pending, cancelled, dispatched);
      RenumberKeepsOrder(pending, after, cancelled, dispatched);
      pending := after;
      return Ok(());
    }
  }

  lemma StuckIsAnother(pending: map<Id, Staged>, turns: map<TurnKey, string>, id: Id)
    requires id in pending && KeyOf(ReceiptOf(pending[id])) !in turns
    ensures forall i <- pending :: Stuck(pending[i], turns) ==> i != id
  {
  }

  // Whatever was accepted is accepted again, word for word the same, and nothing changes:
  // the staged input is dispatched once.
  method RepeatedTurn(outbox: Outbox, key: TurnKey, fingerprint: string, consumed: Option<Consumed>, message: string)
    returns (first: Result<bool>, second: Result<bool>)
    requires outbox.Valid()
    modifies outbox
    ensures outbox.Valid()
    ensures first.Ok? ==> second == Ok(true)
    ensures !first.Ok? ==> second == first
    ensures first == Ok(false) ==> outbox.turns == old(outbox.turns)[key := fingerprint]
    ensures first == Ok(false) && consumed.Some? ==>
      var id := consumed.value.id;
      && id in old(outbox.pending) && outbox.pending == old(outbox.pending) - {id}
      && outbox.dispatched == old(outbox.dispatched)[id := ReceiptOf(old(outbox.pending)[id])]
      && |outbox.log| == |old(outbox.log)| + 1
    ensures first != Ok(false) || consumed.None? ==>
      && outbox.pending == old(outbox.pending) && outbox.dispatched == old(outbox.dispatched)
      && outbox.log == old(outbox.log)
    ensures outbox.cancelled == old(outbox.cancelled)
  {
    hide Orderly, Recorded;
    first := outbox.AcceptTurn(key, fingerprint, consumed, message);
    second := outbox.AcceptTurn(key, fingerprint, consumed, message);
  }

  // A direct turn and then a staged input of the same request: both are accepted, the
  // row is stuck, and no turn that names it, under whatever key, dispatches it.
  method DirectTurnStrands(outbox: Outbox, id: Id, row: Staged, fingerprint: string,
                           key: TurnKey, named: Consumed, message: string)
    returns (direct: Result<bool>, staged: Result<Enqueued>, refused: Result<bool>)
    requires outbox.Valid() && row.revision == 1 && WellNamed(id, row) && named.id == id
    requires IsNew(outbox.pending, outbox.cancelled, outbox.dispatched, id, row)
    requires |OfSession(outbox.pending, row.session)| < MAX_PENDING && !Stuck(row, outbox.turns)
    modifies outbox
    ensures outbox.Valid()
    ensures direct == Ok(false) && staged.Ok? && !staged.value.replayed && !refused.Ok?
    ensures id in outbox.pending && ReceiptOf(outbox.pending[id]) == ReceiptOf(row)
      && Stuck(outbox.pending[id], outbox.turns)
  {
    hide Orderly, Recorded, OfSession, WellNamed, IsNew;
    direct := outbox.AcceptTurn(KeyOf(ReceiptOf(row)), fingerprint, None, "");
    staged := outbox.Enqueue(id, row, None);
    refused := outbox.AcceptTurn(key, fingerprint, Some(named), message);
  }

  // The first k rows of the order have been renumbered.
  ghost predicate Renumbered(before: map<Id, Staged>, after: map<Id, Staged>, order: seq<(Id, int)>, k: nat)
    requires k <= |order|
  {
    && after.Keys == before.Keys
    && (forall j :: 0 <= j < |order| ==> order[j].0 in before)
    && (forall j :: 0 <= j < k ==>
          after[order[j].0] == before[order[j].0].(position := j, revision := before[order[j].0].revision + 1))
    && (forall j :: k <= j < |order| ==> after[order[j].0] == before[order[j].0])
    && (forall i <- before :: i !in Ids(order) ==> after[i] == before[i])
    && (forall i <- before :: ReceiptOf(after[i]) == ReceiptOf(before[i]))
    && (forall i <- before :: after[i].position >= 0 || after[i].position == before[i].position)
  }

  lemma RenumberNext(before: map<Id, Staged>, after: map<Id, Staged>, order: seq<(Id, int)>, k: nat)
    requires k < |order| && Renumbered(before, after, order, k) && WellOrdered(order)
    ensures order[k].0 in after
    ensures
      var id := order[k].0;
      Renumbered(before, after[id := after[id].(position := k, revision := after[id].revision + 1)], order, k + 1)
  {
    assert order[k].0 in Ids(order);
    hide Ids;
  }

  lemma RenumberStarts(before: map<Id, Staged>, order: seq<(Id, int)>)
    requires forall j :: 0 <= j < |order| ==> order[j].0 in before
    ensures Renumbered(before, before, order, 0)
  {
  }

  // The update statements of a reordering, one row at a time.
  method Renumber(pending: map<Id, Staged>, order: seq<(Id, int)>) returns (after: map<Id, Staged>)
    requires WellOrdered(order)
    requires forall k :: 0 <= k < |order| ==> order[k].0 in pending && pending[order[k].0].revision == order[k].1
    ensures Renumbered(pending, after, order, |order|)
  {
    hide Renumbered, WellOrdered;
    RenumberStarts(pending, order);
    after := pending;
    for k := 0 to |order|
      invariant Renumbered(pending, after, order, k)
    {
      RenumberNext(pending, after, order, k);
      var id := order[k].0;
      after := after[id := after[id].(position := k, revision := after[id].revision + 1)];
    }
  }

  lemma IdsAre(order: seq<(Id, int)>)
    ensures forall k :: 0 <= k < |order| ==> order[k].0 in Ids(order)
    ensures forall i <- Ids(order) :: exists k :: 0 <= k < |order| && order[k].0 == i
  {
  }

  lemma MayReorderIsAll(pending: map<Id, Staged>, session: string, order: seq<(Id, int)>)
    requires MayReorder(pending, session, order)
    ensures OfSession(pending, session) == Ids(order)
  {
    hide IsPlausible;
  }

  lemma ReceiptFound(pending: map<Id, Staged>, cancelled: map<Id, string>, dispatched: map<Id, Receipt>, id: Id,
      r: Receipt)
    requires Orderly(pending, cancelled, dispatched)
    ensures FindReceipts(dispatched, id, r) <= dispatched.Keys
    ensures id in dispatched ==> id in FindReceipts(dispatched, id, r)
    ensures id in dispatched && dispatched[id] == r ==> FindReceipts(dispatched, id, r) == {id}
  {
    if id in dispatched && dispatched[id] == r {
      forall i | i in FindReceipts(dispatched, id, r) ensures i == id {
        assert SameDispatch(dispatched[i], dispatched[id]);
      }
    }
  }

  // A receipt is found alone unless the id is another's.
  lemma ReceiptsFound(pending: map<Id, Staged>, cancelled: map<Id, string>, dispatched: map<Id, Receipt>, id: Id,
      i: Id)
    requires Orderly(pending, cancelled, dispatched) && i in dispatched
    ensures FindReceipts(dispatched, id, dispatched[i]) == {i} + if id in dispatched then {id} else {}
  {
    forall j | j in FindReceipts(dispatched, id, dispatched[i]) && j != id ensures j == i {
      assert SameDispatch(dispatched[j], dispatched[i]);
    }
  }

  lemma ReplayFound(pending: map<Id, Staged>, cancelled: map<Id, string>, dispatched: map<Id, Receipt>, id: Id,
      r: Receipt)
    requires Orderly(pending, cancelled, dispatched)
    ensures IsReplay(dispatched, id, r) <==>
      exists i :: i in dispatched && FindReceipts(dispatched, id, r) == {i} && dispatched[i] == r
  {
    hide FindReceipts, Orderly;
    forall i | i in dispatched && dispatched[i] == r
      ensures FindReceipts(dispatched, id, r) == {i} <==> (id in dispatched ==> id == i)
    {
      ReceiptsFound(pending, cancelled, dispatched, id, i);
      if id in dispatched { assert id in {i} + {id}; }
    }
  }

  lemma OneElement(s: set<Id>, i: Id)
    requires |s| == 1 && i in s
    ensures s == {i}
  {
    assert |s - {i}| == 0;
  }

  lemma StagedFound(pending: map<Id, Staged>, id: Id, s: Staged)
    ensures FindStaged(pending, id, s) <= pending.Keys
    ensures id in pending ==> id in FindStaged(pending, id, s)
  {
  }

  lemma Bounded(pending: map<Id, Staged>, cancelled: map<Id, string>, dispatched: map<Id, Receipt>, session: string)
    requires Orderly(pending, cancelled, dispatched)
    ensures |OfSession(pending, session)| <= MAX_PENDING
  {
  }

  // A row whose identities are new keeps everything in order.
  lemma InsertKeepsOrder(pending: map<Id, Staged>, cancelled: map<Id, string>, dispatched: map<Id, Receipt>,
                         id: Id, row: Staged, position: int)
    requires Orderly(pending, cancelled, dispatched)
    requires FindReceipts(dispatched, id, ReceiptOf(row)) == {} && id !in cancelled
      && FindStaged(pending, id, row) == {}
    requires |OfSession(pending, row.session)| < MAX_PENDING && position >= 0
    ensures Orderly(pending[id := row.(position := position)], cancelled, dispatched)
    ensures id !in pending && id !in dispatched
  {
    hide Unique, Capped, FindReceipts, FindStaged, OfSession;
    StagedFound(pending, id, row);
    ReceiptFound(pending, cancelled, dispatched, id, ReceiptOf(row));
    InsertStaysUnique(pending, dispatched, id, row, position);
    InsertStaysCapped(pending, id, row.(position := position));
  }

  lemma InsertStaysCapped(pending: map<Id, Staged>, id: Id, row: Staged)
    requires Capped(pending) && id !in pending && |OfSession(pending, row.session)| < MAX_PENDING
    ensures Capped(pending[id := row])
  {
    var after := pending[id := row];
    forall session ensures |OfSession(after, session)| <= MAX_PENDING {
      InsertCounts(pending, id, row, session);
      assert |OfSession(pending, session)| <= MAX_PENDING;
    }
    hide OfSession;
  }

  lemma InsertCounts(pending: map<Id, Staged>, id: Id, row: Staged, session: string)
    requires id !in pending
    ensures |OfSession(pending[id := row], session)|
         == |OfSession(pending, session)| + if session == row.session then 1 else 0
  {
    var before, after := OfSession(pending, session), OfSession(pending[id := row], session);
    assert after == if session == row.session then before + {id} else before;
  }

  lemma InsertStaysUnique(pending: map<Id, Staged>, dispatched: map<Id, Receipt>, id: Id, row: Staged, position: int)
    requires Unique(pending, dispatched)
    requires FindReceipts(dispatched, id, ReceiptOf(row)) == {} && FindStaged(pending, id, row) == {}
    ensures Unique(pending[id := row.(position := position)], dispatched)
  {
    NewIsUnlike(pending, dispatched, id, row);
  }

  lemma NewIsUnlike(pending: map<Id, Staged>, dispatched: map<Id, Receipt>, id: Id, row: Staged)
    requires FindReceipts(dispatched, id, ReceiptOf(row)) == {} && FindStaged(pending, id, row) == {}
    ensures forall i <- pending :: !SameStaged(pending[i], row)
    ensures forall j <- dispatched :: !SameDispatch(dispatched[j], ReceiptOf(row))
  {
    forall i | i in pending ensures !SameStaged(pending[i], row) { assert i !in FindStaged(pending, id, row); }
    forall j | j in dispatched ensures !SameDispatch(dispatched[j], ReceiptOf(row)) {
      assert j !in FindReceipts(dispatched, id, ReceiptOf(row));
    }
  }

  lemma PositionsAreNatural(pending: map<Id, Staged>, cancelled: map<Id, string>, dispatched: map<Id, Receipt>)
    requires Orderly(pending, cancelled, dispatched)
    ensures forall i <- pending :: pending[i].position >= 0
  {
  }

  lemma NextIsNatural(pending: map<Id, Staged>, cancelled: map<Id, string>, dispatched: map<Id, Receipt>,
      session: string, at: int)
    requires Orderly(pending, cancelled, dispatched) && IsNextPosition(pending, session, at)
    ensures at >= 0
  {
    hide Unique, Capped;
    if OfSession(pending, session) != {} {
      var i :| i in OfSession(pending, session) && pending[i].position == at - 1;
    }
  }

  lemma StagedIsAlone(pending: map<Id, Staged>, dispatched: map<Id, Receipt>, i: Id, j: Id)
    requires Unique(pending, dispatched) && i in pending && j in pending
    ensures SameStaged(pending[i], pending[j]) ==> i == j
  {
  }

  // Repeating the request of a staged row finds that row and nothing else.
  lemma RepeatIsFound(pending: map<Id, Staged>, cancelled: map<Id, string>, dispatched: map<Id, Receipt>, id: Id,
      row: Staged)
    requires Orderly(pending, cancelled, dispatched) && id in pending
    ensures ReceiptOf(row) == ReceiptOf(pending[id]) ==>
      FindReceipts(dispatched, id, ReceiptOf(row)) == {} && FindStaged(pending, id, row) == {id}
  {
    hide Capped;
    if ReceiptOf(row) == ReceiptOf(pending[id]) {
      forall i | i in FindStaged(pending, id, row) ensures i == id {
        StagedIsAlone(pending, dispatched, i, id);
      }
      forall j | j in dispatched ensures !SameDispatch(dispatched[j], ReceiptOf(row)) && j != id {
        assert !SameDispatch(dispatched[j], ReceiptOf(pending[id]));
      }
      assert FindReceipts(dispatched, id, ReceiptOf(row)) == {};
    }
  }

  lemma NotBoth(pending: map<Id, Staged>, cancelled: map<Id, string>, dispatched: map<Id, Receipt>, id: Id)
    requires Orderly(pending, cancelled, dispatched)
    ensures id in pending ==> id !in dispatched && id !in cancelled
    ensures id in dispatched ==> id !in cancelled
  {
  }

  // A staged id may move to the receipts or to the cancellations, and an id that was
  // never staged may be cancelled.
  lemma StagedWhenMoved(staged: set<Id>, pending: set<Id>, dispatched: set<Id>, cancelled: set<Id>, id: Id)
    requires staged == pending + dispatched + (staged * cancelled)
    ensures id in pending ==> staged == (pending - {id}) + (dispatched + {id}) + (staged * cancelled)
    ensures staged == (pending - {id}) + dispatched + (staged * (cancelled + {id})) || id in dispatched
  {
  }

  lemma TurnIsRecorded(dispatched: map<Id, Receipt>, turns: map<TurnKey, string>, log: seq<Dispatch>, key: TurnKey,
      fingerprint: string)
    requires Recorded(dispatched, turns, log)
    ensures Recorded(dispatched, turns[key := fingerprint], log)
  {
  }

  lemma CancelKeepsOrder(pending: map<Id, Staged>, cancelled: map<Id, string>, dispatched: map<Id, Receipt>, id: Id,
      session: string)
    requires Orderly(pending, cancelled, dispatched) && id !in dispatched
    ensures Orderly(pending - {id}, cancelled[id := session], dispatched)
  {
    if id in pending { RemoveKeepsOrder(pending, dispatched, id); } else { assert pending - {id} == pending; }
    hide Unique, Capped;
  }

  lemma RemoveKeepsOrder(pending: map<Id, Staged>, dispatched: map<Id, Receipt>, id: Id)
    requires Unique(pending, dispatched) && Capped(pending) && id in pending
    ensures Unique(pending - {id}, dispatched) && Capped(pending - {id})
  {
    var after := pending - {id};
    forall session ensures |OfSession(after, session)| <= MAX_PENDING {
      RemoveCounts(pending, id, session);
      assert |OfSession(pending, session)| <= MAX_PENDING;
    }
    hide OfSession;
  }

  lemma RemoveCounts(pending: map<Id, Staged>, id: Id, session: string)
    ensures |OfSession(pending - {id}, session)| <= |OfSession(pending, session)|
  {
    assert OfSession(pending - {id}, session) == OfSession(pending, session) - {id};
  }

  // The receipt of a staged input meets none of the receipts' unique indexes.
  lemma DispatchKeepsOrder(pending: map<Id, Staged>, cancelled: map<Id, string>, dispatched: map<Id, Receipt>, id: Id)
    requires Orderly(pending, cancelled, dispatched) && id in pending
    ensures FindReceipts(dispatched, id, ReceiptOf(pending[id])) == {}
    ensures Orderly(pending - {id}, cancelled, dispatched[id := ReceiptOf(pending[id])])
  {
    RemoveKeepsOrder(pending, dispatched, id);
    DispatchStaysUnique(pending, dispatched, id);
    hide Capped;
  }

  lemma DispatchStaysUnique(pending: map<Id, Staged>, dispatched: map<Id, Receipt>, id: Id)
    requires Unique(pending, dispatched) && id in pending && id !in dispatched
    ensures Unique(pending - {id}, dispatched[id := ReceiptOf(pending[id])])
  {
    var row := pending[id];
    forall i | i in pending && i != id ensures !SameDispatch(ReceiptOf(row), ReceiptOf(pending[i])) {
      assert !SameStaged(row, pending[i]);
    }
  }

  lemma DispatchIsRecorded(dispatched: map<Id, Receipt>, turns: map<TurnKey, string>, log: seq<Dispatch>,
                           id: Id, receipt: Receipt, fingerprint: string)
    requires Recorded(dispatched, turns, log) && id !in dispatched
    ensures Recorded(dispatched[id := receipt], turns[KeyOf(receipt) := fingerprint], log + [Dispatch(id, receipt)])
  {
    var log' := log + [Dispatch(id, receipt)];
    var after := dispatched[id := receipt];
    forall i | i in after ensures exists k :: 0 <= k < |log'| && log'[k].id == i {
      if i == id {
        assert log'[|log|].id == id;
      } else {
        var k :| 0 <= k < |log| && log[k].id == i;
        assert log'[k].id == i;
      }
    }
  }

  lemma StaleRowIsNone(pending: map<Id, Staged>, cancelled: map<Id, string>, dispatched: map<Id, Receipt>, id: Id,
      i: Id)
    requires Orderly(pending, cancelled, dispatched) && id in pending && i in dispatched
    ensures ReceiptOf(pending[id]) != dispatched[i]
  {
    assert !SameDispatch(dispatched[i], ReceiptOf(pending[id]));
  }

  // New positions and revisions change no identity.
  lemma RenumberKeepsOrder(pending: map<Id, Staged>, after: map<Id, Staged>, cancelled: map<Id, string>,
                           dispatched: map<Id, Receipt>)
    requires Orderly(pending, cancelled, dispatched) && after.Keys == pending.Keys
    requires forall i <- pending :: ReceiptOf(after[i]) == ReceiptOf(pending[i]) && after[i].position >= 0
    ensures Orderly(after, cancelled, dispatched)
  {
    forall i, j | i in pending && j in pending && i != j ensures !SameStaged(after[i], after[j]) {
      assert !SameStaged(pending[i], pending[j]) && ReceiptOf(after[i]) == ReceiptOf(pending[i])
        && ReceiptOf(after[j]) == ReceiptOf(pending[j]);
    }
    forall session ensures OfSession(after, session) == OfSession(pending, session) {
      RenumberKeepsSession(pending, after, session);
    }
    hide OfSession;
  }

  lemma RenumberKeepsSession(pending: map<Id, Staged>, after: map<Id, Staged>, session: string)
    requires after.Keys == pending.Keys && forall i <- pending :: ReceiptOf(after[i]) == ReceiptOf(pending[i])
    ensures OfSession(after, session) == OfSession(pending, session)
  {
    forall i | i in pending ensures after[i].session == pending[i].session {
      assert ReceiptOf(after[i]) == ReceiptOf(pending[i]);
    }
  }

  // Over any transactions: no request and no message of a session is dispatched twice.
  lemma DispatchedOnce(dispatched: map<Id, Receipt>, turns: map<TurnKey, string>, log: seq<Dispatch>,
                       pending: map<Id, Staged>, k: nat, l: nat)
    requires Recorded(dispatched, turns, log) && Unique(pending, dispatched) && k < l < |log|
    ensures log[k].id != log[l].id
    ensures log[k].receipt.session == log[l].receipt.session && log[k].receipt.scope == log[l].receipt.scope ==>
      log[k].receipt.request != log[l].receipt.request
    ensures log[k].receipt.session == log[l].receipt.session ==> log[k].receipt.message != log[l].receipt.message
  {
    assert !SameDispatch(dispatched[log[k].id], dispatched[log[l].id]);
  }

  // Every staged input is in exactly one place.
  lemma StagedIsConserved(staged: set<Id>, pending: map<Id, Staged>, cancelled: map<Id, string>,
      dispatched: map<Id, Receipt>)
    requires Orderly(pending, cancelled, dispatched)
    requires staged == pending.Keys + dispatched.Keys + (staged * cancelled.Keys)
    ensures |staged| == |pending.Keys| + |dispatched.Keys| + |staged * cancelled.Keys|
  {
    hide Unique, Capped;
    var withdrawn := staged * cancelled.Keys;
    assert pending.Keys !! dispatched.Keys && (pending.Keys + dispatched.Keys) !! withdrawn;
  }
}
