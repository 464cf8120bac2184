/** The RIL client: token pool, request history and handler tables kept consistent while
  * requests are sent and answered in any order. Each method is one atomic step.
  */
module RilClient {
  import opened Options
  import opened RilSlots
  import opened RilWords
  import opened RilHandlers
  import opened RilTrace

  type Request = Slot<Word, nat>

  /** The tokens in the history are exactly the bits set in the pool, each in one slot. */
  ghost predicate Agree(pool: Word, history: seq<Request>) {
    && |history| == POOL_SIZE
    && Distinct(history, NONE)
    && forall t :: t in Entries(history, NONE) <==> IsToken(t) && Has(pool, t)
  }

  /** Requests are sent with ids other than 0, which marks free slots. */
  ghost predicate IdsOk(m: map<Word, nat>) { forall t :: t in m ==> m[t] != 0 }

  /** As long as pool and history agree, a free token has a free history slot. */
  lemma RoomForToken(pool: Word, history: seq<Request>)
    requires Agree(pool, history)
    ensures IsFull(pool) <==> |Entries(history, NONE)| == POOL_SIZE
    ensures |Entries(history, NONE)| <= POOL_SIZE
  {
    hide IsToken, Has, IsFull;
    var m := Entries(history, NONE);
    FullIff32(pool, m.Keys);
    assert |m.Keys| == |m|;
  }

  /** Recording a fresh token, or clearing one, keeps pool and history in agreement. */
  lemma AgreeAfter(pool: Word, history: seq<Request>, pool': Word, history': seq<Request>, t: Word, added: bool)
    requires Agree(pool, history) && IsToken(t)
    requires |history'| == POOL_SIZE && Distinct(history', NONE)
    requires var m, m' := Entries(history, NONE).Keys, Entries(history', NONE).Keys;
             m' == if added then m + {t} else m - {t}
    requires if added then Taken(pool, t, pool') else pool' == Minus(pool, t)
    ensures Agree(pool', history')
  {
    hide IsToken, Has, Minus, Taken;
    var m, m' := Entries(history, NONE), Entries(history', NONE);
    forall u ensures u in m' <==> IsToken(u) && Has(pool', u) {
      assert u in m' <==> u in m'.Keys;
      assert u in m <==> u in m.Keys;
      if IsToken(u) {
        if added { TakenMarks(pool, t, pool', u); } else { MinusMarks(pool, t, u); }
      }
    }
  }

  lemma AgreeSame(pool: Word, history: seq<Request>, history': seq<Request>)
    requires Agree(pool, history)
    requires |history'| == POOL_SIZE && Distinct(history', NONE) && Entries(history', NONE) == Entries(history, NONE)
    ensures Agree(pool, history')
  {}

  lemma Withdrawn(pool: Word, before: seq<Request>, after: seq<Request>, token: Word, id: nat)
    requires Agree(pool, before) && token !in Entries(before, NONE)
    requires |after| == POOL_SIZE && Distinct(after, NONE)
    requires Entries(after, NONE) == Entries(before, NONE)[token := id] - {token}
    ensures Agree(pool, after) && Entries(after, NONE) == Entries(before, NONE)
  {
    assert Entries(before, NONE)[token := id] - {token} == Entries(before, NONE);
    AgreeSame(pool, before, after);
  }

  class RilClient {
    var tokenPool: Word
    const history: array<Request>
    const reqHandlers: HandlerTable
    const unsolHandlers: HandlerTable

    ghost predicate Valid()
      reads this, history, reqHandlers.slots, unsolHandlers.slots
    {
      && Agree(tokenPool, history[..]) && IdsOk(Entries(history[..], NONE))
      && reqHandlers.Valid() && unsolHandlers.Valid() && reqHandlers.slots != unsolHandlers.slots
    }

    /** The requests that await a response, by token. */
    ghost function Outstanding(): map<Word, nat>
      reads this, history
      requires Agree(tokenPool, history[..])
    {
      Entries(history[..], NONE)
    }

    /** The client as its callers and the server see it. */
    ghost function View(): State
      reads this, history, reqHandlers.slots, unsolHandlers.slots
      requires Valid()
    {
      State(Outstanding(), reqHandlers.Handlers())
    }

    constructor ()
      ensures Valid() && View() == State(map[], map[]) && fresh(history) && fresh(reqHandlers.slots)
    {
      tokenPool := NONE;
      history := new Request[POOL_SIZE](_ => Slot(NONE, 0));
      reqHandlers := new HandlerTable();
      unsolHandlers := new HandlerTable();
      new;
      hide IsToken, Has;
      forall t | IsToken(t) ensures !Has(NONE, t) { NoneEmpty(t); }
    }

    /** RecordReqHistory: writes the first free slot; fails only if there is none. */
    method RecordReqHistory(token: Word, id: nat) returns (err: int)
      requires history.Length == POOL_SIZE && Distinct(history[..], NONE)
      requires token != NONE && token !in Entries(history[..], NONE)
      modifies history
      ensures Distinct(history[..], NONE)
      ensures err == if |old(Entries(history[..], NONE))| == POOL_SIZE then ERR_RESOURCE else ERR_SUCCESS
      ensures var before := old(Entries(history[..], NONE));
              Entries(history[..], NONE) == if err == ERR_SUCCESS then before[token := id] else before
    {
      Occupancy(history[..], NONE);
      for i := 0 to POOL_SIZE
        invariant history[..] == old(history[..])
        invariant forall j :: 0 <= j < i ==> history[j].key != NONE
      {
        if history[i].key == NONE {
          Store(i, token, id);
          return ERR_SUCCESS;
        }
      }
      return ERR_RESOURCE;
    }

    /** Writes a free slot, or erases one. */
    method Store(i: nat, token: Word, id: nat)
      requires i < history.Length && Distinct(history[..], NONE)
      requires token == NONE || (token !in Entries(history[..], NONE) && history[i].key == NONE)
      modifies history
      ensures Distinct(history[..], NONE)
      ensures var before := old(Entries(history[..], NONE));
              Entries(history[..], NONE)
              == if token == NONE then before - {old(history[i].key)} else before[token := id]
    {
      forall j | 0 <= j < history.Length && j != i && token != NONE ensures history[j].key != token {
        assert history[..][j].key == history[j].key;
      }
      Stored(history[..], i, token, id, NONE);
      InEntries(history[..], NONE);
      ghost var m := Entries(history[..], NONE);
      assert m - {NONE} == m;
      history[i] := Slot(token, id);
      assert history[..] == old(history[..])[i := Slot(token, id)];
    }

    /** ClearReqHistory: forgets the request recorded under a token. */
    method ClearReqHistory(token: Word)
      requires history.Length == POOL_SIZE && Distinct(history[..], NONE) && token != NONE
      modifies history
      ensures Distinct(history[..], NONE)
      ensures Entries(history[..], NONE) == old(Entries(history[..], NONE)) - {token}
    {
      InEntries(history[..], NONE);
      for i := 0 to POOL_SIZE
        invariant history[..] == old(history[..])
        invariant forall j :: 0 <= j < i ==> history[j].key != token
      {
        if history[i].key == token {
          assert history[..][i].key == token;
          Store(i, NONE, 0);
          return;
        }
      }
      ghost var m := Entries(history[..], NONE);
      assert forall j :: 0 <= j < |history[..]| ==> history[..][j].key == history[j].key;
      assert m - {token} == m;
    }

    /** FindReqHandler: by way of the request id that the history records. */
    method FindReqHandler(token: Word) returns (handler: Handler)
      requires Valid() && token != NONE
      ensures handler == if token in Outstanding() then Lookup(reqHandlers.Handlers(), Outstanding()[token]) else NULL
    {
      hide IsToken, Has;
      InEntries(history[..], NONE);
      for i := 0 to POOL_SIZE
        invariant forall j :: 0 <= j < i && history[j].key == token ==>
                    Lookup(reqHandlers.Handlers(), history[j].value) == NULL
      {
        if history[i].key == token {
          assert history[..][i].key == token;
          handler := reqHandlers.Find(history[i].value);
          if handler != NULL {
            return handler;
          }
        }
      }
      assert forall j :: 0 <= j < |history[..]| ==> history[..][j].key == history[j].key;
      return NULL;
    }

    /** SendOemRequestHookRaw; `written` says whether both socket writes succeed. A failed send
      * leaves pool and outstanding requests as they were. */
    method Send(id: nat, written: bool) returns (err: int, e: Event)
      requires Valid() && id != 0
      modifies this`tokenPool, history
      ensures Valid() && Happened(old(View()), e, View())
      ensures err == if |old(Outstanding())| == POOL_SIZE then ERR_AGAIN
                     else if written then ERR_SUCCESS else ERR_UNKNOWN
      ensures err == ERR_SUCCESS ==> e.Sent? && e.id == id
      ensures err == ERR_AGAIN ==> e == NoToken
      ensures err == ERR_UNKNOWN ==> e == WriteFailed
      ensures err != ERR_SUCCESS ==> tokenPool == old(tokenPool)
    {
      RoomForToken(tokenPool, history[..]);
      ghost var m, handlers := Outstanding(), reqHandlers.Handlers();
      hide IsToken, Has, Taken, IsFull, Distinct, Entries, HandlerTable.Valid;
      var pool', token := Allocate(tokenPool);
      if token == NONE {
        return ERR_AGAIN, NoToken;
      }
      ghost var after;
      err, after := SendWithToken(token, pool', id, written);
      e := if written then Sent(token, id) else WriteFailed;
      assert View() == State(if written then m[token := id] else m, handlers);
    }

    /** The rest of SendOemRequestHookRaw, once it has a token. */
    method SendWithToken(token: Word, pool': Word, id: nat, written: bool) returns (err: int, ghost after: seq<Request>)
      requires Agree(tokenPool, history[..]) && |Entries(history[..], NONE)| < POOL_SIZE
      requires token != NONE && IsToken(token) && token !in Entries(history[..], NONE) && Taken(tokenPool, token, pool')
      modifies this`tokenPool, history
      ensures history[..] == after && err == if written then ERR_SUCCESS else ERR_UNKNOWN
      ensures Agree(tokenPool, after)
      ensures var before := old(Entries(history[..], NONE));
              Entries(after, NONE) == if written then before[token := id] else before
      ensures !written ==> tokenPool == old(tokenPool)
    {
      ghost var pool, before := tokenPool, history[..];
      assert |before| == POOL_SIZE && Distinct(before, NONE);
      hide IsToken, Has, Minus, Taken, Agree, Distinct, Entries;
      tokenPool := pool';
      err := RecordReqHistory(token, id);
      after := history[..];
      if err != ERR_SUCCESS || !written {
        Undo(pool, token);
        after := history[..];
        Withdrawn(pool, before, after, token, id);
        return ERR_UNKNOWN, after;
      }
      AgreeAfter(pool, before, tokenPool, after, token, true);
    }

    /** The error path. */
    method Undo(ghost pool: Word, token: Word)
      requires history.Length == POOL_SIZE && Distinct(history[..], NONE) && token != NONE
      requires Taken(pool, token, tokenPool)
      modifies this`tokenPool, history
      ensures tokenPool == pool && Distinct(history[..], NONE)
      ensures Entries(history[..], NONE) == old(Entries(history[..], NONE)) - {token}
    {
      MinusUndoes(pool, token, tokenPool);
      tokenPool := Minus(tokenPool, token);
      ClearReqHistory(token);
    }

    /** processSolicited, for a response of which `token` and `error` could be read if not None;
      * `call` is the handler invoked, NULL if none. */
    method ProcessSolicited(token: Option<Word>, error: Option<int>) returns (err: int, call: Handler)
      requires Valid()
      modifies this`tokenPool, history
      ensures err == if token.None? then ERR_IO else if !Accepted(old(tokenPool), token.value) then ERR_INVAL
                     else if error.None? then ERR_IO else ERR_SUCCESS
      ensures token.None? || !Accepted(old(tokenPool), token.value) ==>
                Valid() && call == NULL && tokenPool == old(tokenPool) && Happened(old(View()), Rejected(token), View())
      ensures token.Some? && Accepted(old(tokenPool), token.value) ==> (Valid() <==> IsToken(token.value))
      ensures token.Some? && Accepted(old(tokenPool), token.value) && IsToken(token.value) ==>
                && tokenPool == Minus(old(tokenPool), token.value)
                && Happened(old(View()), Answered(token.value, error == Some(ERR_SUCCESS), call), View())
    {
      hide IsToken, Has, Minus, Accepted;
      if token.Some? { AcceptedHas(tokenPool, token.value); }
      call := NULL;
      if token.None? {
        return ERR_IO, call;
      }
      var t := token.value;
      if !Accepted(tokenPool, t) {
        return ERR_INVAL, call;
      }
      err := if error.None? then ERR_IO else ERR_SUCCESS;
      if error == Some(ERR_SUCCESS) {
        call := FindReqHandler(t);
      }
      Forget(t);
    }

    /** The end of processSolicited: frees the token, then clears the history. With a token of
      * several bits this frees every one of them but clears no request. */
    method Forget(t: Word)
      requires Agree(tokenPool, history[..]) && Accepted(tokenPool, t)
      modifies this`tokenPool, history
      ensures tokenPool == Minus(old(tokenPool), t)
      ensures Agree(tokenPool, history[..]) <==> IsToken(t)
      ensures IsToken(t) ==> t in old(Outstanding()) && Outstanding() == old(Outstanding()) - {t}
    {
      hide IsToken, Has, Minus, Accepted;
      ghost var pool, before := tokenPool, history[..];
      AcceptedHas(pool, t);
      tokenPool := Minus(tokenPool, t);
      ClearReqHistory(t);
      if IsToken(t) {
        AgreeAfter(pool, before, tokenPool, history[..], t, false);
      } else {
        Broken(pool, before, history[..], t);
      }
    }

    /** RegisterRequestCompleteHandler. */
    method RegisterRequestCompleteHandler(id: nat, handler: Handler) returns (err: int)
      requires Valid()
      modifies reqHandlers.slots
      ensures Valid() && err == if Full(old(reqHandlers.Handlers()), id, handler) then ERR_RESOURCE else ERR_SUCCESS
      ensures Happened(old(View()), if err == ERR_SUCCESS then Registered(id, handler) else TableFull(id), View())
    {
      hide IsToken, Has;
      err := reqHandlers.Register(id, handler);
    }

    /** processUnsolicited, for a response of which the id could be read if not None: the handler to
      * invoke, NULL if none. */
    method ProcessUnsolicited(id: Option<nat>) returns (err: int, call: Handler)
      requires Valid()
      ensures err == if id.None? then ERR_IO else ERR_SUCCESS
      ensures call == if id.None? then NULL else FirstWith(unsolHandlers.slots[..], id.value)
      ensures id.Some? && id.value != 0 ==> call == Lookup(unsolHandlers.Handlers(), id.value)
    {
      if id.None? { return ERR_IO, NULL; }
      err := ERR_SUCCESS;
      call := unsolHandlers.Find(id.value);
    }
  }

  /** A token of several bits takes tokens out of the pool that stay in the history. */
  lemma Broken(pool: Word, history: seq<Request>, history': seq<Request>, w: Word)
    requires Agree(pool, history) && Accepted(pool, w) && !IsToken(w)
    requires Distinct(history', NONE) && Entries(history', NONE) == Entries(history, NONE) - {w}
    ensures !Agree(Minus(pool, w), history')
  {
    hide IsToken, Has, Minus, Accepted;
    var t := PartOf(pool, w);
    assert t in Entries(history, NONE);
    assert t in Entries(history', NONE);
  }

  /** Any two outstanding requests admit such a token: a response that carries the union of
    * theirs is accepted, and leaves pool and history in disagreement. */
  lemma UnionBreaks(pool: Word, history: seq<Request>, a: Word, b: Word)
    requires Agree(pool, history) && a != b && a in Entries(history, NONE) && b in Entries(history, NONE)
    ensures Accepted(pool, Union(a, b)) && !Agree(Minus(pool, Union(a, b)), history)
  {
    hide IsToken, Has, Minus, Accepted, Union;
    UnionAccepted(pool, a, b);
    var w, m := Union(a, b), Entries(history, NONE);
    assert w !in m;
    assert m - {w} == m;
    Broken(pool, history, history, w);
  }

  // -------- whole runs

  datatype Op =
    | Register(id: nat, handler: Handler)
    | Send(id: nat, written: bool)
    | Respond(token: Option<Word>, error: Option<int>)

  /** Requests have ids other than 0, and responses carry single-bit tokens, known or not. */
  predicate OpOk(op: Op) {
    (op.Send? ==> op.id != 0) && (op.Respond? && op.token.Some? ==> IsToken(op.token.value))
  }

  /** An event is what the client makes of an operation. */
  predicate Makes(op: Op, e: Event) {
    match op
    case Register(id, handler) => e == Registered(id, handler) || (e == TableFull(id) && handler != NULL)
    case Send(id, written) => e == NoToken || if written then e.Sent? && e.id == id else e == WriteFailed
    case Respond(token, error) =>
      e == Rejected(token) || (e.Answered? && token == Some(e.token) && e.ok == (error == Some(ERR_SUCCESS)))
  }

  method RunOne(client: RilClient, op: Op) returns (e: Event)
    requires client.Valid() && OpOk(op)
    modifies client`tokenPool, client.history, client.reqHandlers.slots
    ensures client.Valid() && Makes(op, e) && Happened(old(client.View()), e, client.View())
  {
    hide IsToken, Happened;
    match op
    case Register(id, handler) =>
      var err := client.RegisterRequestCompleteHandler(id, handler);
      e := if err == ERR_SUCCESS then Registered(id, handler) else TableFull(id);
    case Send(id, written) =>
      var err;
      err, e := client.Send(id, written);
    case Respond(token, error) =>
      var accepted := token.Some? && Accepted(client.tokenPool, token.value);
      var _, call := client.ProcessSolicited(token, error);
      e := if accepted then Answered(token.value, error == Some(ERR_SUCCESS), call) else Rejected(token);
  }

  /** Whatever a client is asked to do and whatever responses come in, in any order: what happens is
    * a legal trace, one event for each operation, and the client is in the state it leads to. */
  method RunClient(ops: seq<Op>) returns (client: RilClient, trace: seq<Event>)
    requires forall k :: 0 <= k < |ops| ==> OpOk(ops[k])
    ensures client.Valid() && Legal(trace) && StateAfter(trace) == client.View()
    ensures |trace| == |ops| && forall k :: 0 <= k < |ops| ==> Makes(ops[k], trace[k])
  {
    hide Makes, OpOk, Allowed, After;
    client := new RilClient();
    trace := [];
    for k := 0 to |ops|
      invariant client.Valid() && Legal(trace) && StateAfter(trace) == client.View()
      invariant fresh(client) && fresh(client.history) && fresh(client.reqHandlers.slots)
      invariant |trace| == k && forall j :: 0 <= j < k ==> Makes(ops[j], trace[j])
    {
      var e := RunOne(client, ops[k]);
      Extended(trace, e);
      trace := trace + [e];
    }
  }

  /** A client with handlers for two ids and a request sent for each; the tokens are what the server
    * sees. */
  method SendTwo(id: nat, id': nat, h: Handler, h': Handler) returns (client: RilClient, a: Word, b: Word)
    requires id != 0 && id' != 0 && id != id' && h != NULL && h' != NULL
    ensures fresh(client) && fresh(client.history) && fresh(client.reqHandlers.slots) && client.Valid() && a != b
    ensures client.View() == State(map[a := id, b := id'], map[id := h, id' := h'])
  {
    hide IsToken;
    client := new RilClient();
    var r := client.RegisterRequestCompleteHandler(id, h);
    r := client.RegisterRequestCompleteHandler(id', h');
    assert client.View() == State(map[], map[id := h, id' := h']);
    var e, e';
    r, e := client.Send(id, true);
    assert client.View() == State(map[e.token := id], map[id := h, id' := h']);
    r, e' := client.Send(id', true);
    a, b := e.token, e'.token;
  }

  /** A successful response to an outstanding request. */
  method AnswerOne(client: RilClient, token: Word) returns (call: Handler)
    requires client.Valid() && token in client.View().outstanding
    modifies client`tokenPool, client.history
    ensures client.Valid() && call == Lookup(old(client.View()).handlers, old(client.View()).outstanding[token])
    ensures client.View() == old(client.View()).(outstanding := old(client.View()).outstanding - {token})
  {
    hide IsToken, Accepted, Minus;
    OutstandingAccepted(client, token);
    var r;
    r, call := client.ProcessSolicited(Some(token), Some(ERR_SUCCESS));
  }

  /** Two requests answered in the opposite order: each response invokes its own request's handler. */
  method AnswerOutOfOrder(id: nat, id': nat, h: Handler, h': Handler) returns (first: Handler, second: Handler)
    requires id != 0 && id' != 0 && id != id' && h != NULL && h' != NULL
    ensures first == h' && second == h
  {
    hide IsToken, Agree, IdsOk, Distinct, Entries, RilClient.Valid;
    var client, a, b := SendTwo(id, id', h, h');
    first := AnswerOne(client, b);
    assert client.View() == State(map[a := id], map[id := h, id' := h']);
    second := AnswerOne(client, a);
  }

  /** A response to an outstanding request is accepted. */
  lemma OutstandingAccepted(client: RilClient, token: Word)
    requires client.Valid() && token in client.View().outstanding
    ensures IsToken(token) && Accepted(client.tokenPool, token)
  {
    hide IsToken, Has, Accepted;
    assert token in Entries(client.history[..], NONE);
    TokenIsSome(token);
    AcceptedHas(client.tokenPool, token);
  }
}
