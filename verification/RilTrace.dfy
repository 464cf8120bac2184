/** What the RIL client promises over whole runs, as events seen from outside: requests sent,
  * responses answered, handlers registered. The client (RilClient) produces only legal traces.
  */
module RilTrace {
  import opened Options
  import opened RilWords
  import opened RilHandlers

  datatype Event =
    | Sent(token: Word, id: nat)
    | NoToken
    | WriteFailed
    | Answered(token: Word, ok: bool, call: Handler)   // `call` is the handler invoked, or NULL
    | Rejected(word: Option<Word>)                     // a response without or with an unknown token
    | Registered(id: nat, handler: Handler)
    | TableFull(id: nat)

  datatype State = State(outstanding: map<Word, nat>, handlers: map<nat, Handler>)

  /** Which events can happen in a state. */
  predicate Allowed(s: State, e: Event) {
    match e
    case Sent(token, id) => IsToken(token) && token !in s.outstanding && id != 0
    case NoToken => |s.outstanding| == POOL_SIZE
    case WriteFailed => |s.outstanding| < POOL_SIZE
    case Answered(token, ok, call) =>
      token in s.outstanding && call == if ok then Lookup(s.handlers, s.outstanding[token]) else NULL
    case Rejected(word) => word.None? || word.value !in s.outstanding
    case Registered(id, handler) => !Full(s.handlers, id, handler)
    case TableFull(id) => id !in s.handlers && |s.handlers| == POOL_SIZE
  }

  function After(s: State, e: Event): State {
    match e
    case Sent(token, id) => s.(outstanding := s.outstanding[token := id])
    case Answered(token, _, _) => s.(outstanding := s.outstanding - {token})
    case Registered(id, handler) => s.(handlers := Updated(s.handlers, id, handler))
    case _ => s
  }

  /** An event that was possible took place. */
  ghost predicate Happened(s: State, e: Event, s': State) { Allowed(s, e) && s' == After(s, e) }

  function StateAfter(trace: seq<Event>): State {
    if trace == [] then State(map[], map[])
    else After(StateAfter(trace[..|trace| - 1]), trace[|trace| - 1])
  }

  ghost predicate Legal(trace: seq<Event>) {
    trace == [] || (Legal(trace[..|trace| - 1]) && Allowed(StateAfter(trace[..|trace| - 1]), trace[|trace| - 1]))
  }

  /** The request for which a token was last sent and has not been answered since. */
  function OpenRequest(trace: seq<Event>, token: Word): Option<nat> {
    if trace == [] then None
    else
      var e := trace[|trace| - 1];
      if e.Sent? && e.token == token then Some(e.id)
      else if e.Answered? && e.token == token then None
      else OpenRequest(trace[..|trace| - 1], token)
  }

  /** The handler given by the last registration for an id. */
  function LastRegistered(trace: seq<Event>, id: nat): Handler {
    if trace == [] then NULL
    else
      var e := trace[|trace| - 1];
      if e.Registered? && e.id == id then e.handler
      else LastRegistered(trace[..|trace| - 1], id)
  }

  lemma {:induction false} LegalPrefix(trace: seq<Event>, k: nat)
    requires Legal(trace) && k <= |trace|
    ensures Legal(trace[..k])
    decreases |trace|
  {
    if k < |trace| {
      var init := trace[..|trace| - 1];
      LegalPrefix(init, k);
      assert init[..k] == trace[..k];
    } else {
      assert trace[..k] == trace;
    }
  }

  lemma {:induction false} OutstandingIsOpen(trace: seq<Event>, token: Word)
    ensures var m := StateAfter(trace).outstanding;
            OpenRequest(trace, token) == if token in m then Some(m[token]) else None
  {
    if trace != [] {
      var init, e := trace[..|trace| - 1], trace[|trace| - 1];
      OutstandingIsOpen(init, token);
      assert StateAfter(trace) == After(StateAfter(init), e);
      if e.Answered? { assert StateAfter(trace).outstanding == StateAfter(init).outstanding - {e.token}; }
    }
  }

  lemma {:induction false} HandlersAreLast(trace: seq<Event>, id: nat)
    requires Legal(trace) && id != 0
    ensures Lookup(StateAfter(trace).handlers, id) == LastRegistered(trace, id)
  {
    if trace != [] { HandlersAreLast(trace[..|trace| - 1], id); }
  }

  lemma {:induction false} IdsNotZero(trace: seq<Event>, token: Word)
    requires Legal(trace) && token in StateAfter(trace).outstanding
    ensures StateAfter(trace).outstanding[token] != 0
  {
    if trace != [] {
      var e := trace[|trace| - 1];
      if !(e.Sent? && e.token == token) { IdsNotZero(trace[..|trace| - 1], token); }
    }
  }

  /** Every response that is accepted answers a request still open, and if it is a success it
    * invokes exactly the handler last registered for that request's id. */
  lemma Routing(trace: seq<Event>, k: nat)
    requires Legal(trace) && k < |trace| && trace[k].Answered?
    ensures var id := OpenRequest(trace[..k], trace[k].token);
            && id.Some?
            && trace[k].call == if trace[k].ok then LastRegistered(trace[..k], id.value) else NULL
  {
    LegalPrefix(trace, k + 1);
    assert trace[..k + 1][..k] == trace[..k];
    assert Legal(trace[..k]) && Allowed(StateAfter(trace[..k]), trace[k]);
    OutstandingIsOpen(trace[..k], trace[k].token);
    IdsNotZero(trace[..k], trace[k].token);
    HandlersAreLast(trace[..k], StateAfter(trace[..k]).outstanding[trace[k].token]);
  }

  /** An open request was sent after the last answer to its token. */
  lemma {:induction false} OpenWasSent(trace: seq<Event>, token: Word, since: nat) returns (j: nat)
    requires since < |trace| && trace[since].Answered? && trace[since].token == token
    requires OpenRequest(trace, token).Some?
    ensures since < j < |trace| && trace[j] == Sent(token, OpenRequest(trace, token).value)
    decreases |trace|
  {
    var n := |trace| - 1;
    if trace[n].Sent? && trace[n].token == token {
      j := n;
    } else {
      j := OpenWasSent(trace[..n], token, since);
    }
  }

  /** At most one response is accepted for each allocation of a token. */
  lemma AnsweredOnce(trace: seq<Event>, i: nat, k: nat) returns (j: nat)
    requires Legal(trace) && i < k < |trace|
    requires trace[i].Answered? && trace[k].Answered? && trace[i].token == trace[k].token
    ensures i < j < k && trace[j].Sent? && trace[j].token == trace[i].token
  {
    Routing(trace, k);
    j := OpenWasSent(trace[..k], trace[k].token, i);
  }

  function Count(trace: seq<Event>, sent: bool): nat {
    if trace == [] then 0
    else
      var e := trace[|trace| - 1];
      Count(trace[..|trace| - 1], sent) + if (if sent then e.Sent? else e.Answered?) then 1 else 0
  }

  /** Requests are conserved: sent = answered + outstanding, in every legal run. */
  lemma {:induction false} RequestsConserved(trace: seq<Event>)
    requires Legal(trace)
    ensures Count(trace, true) == Count(trace, false) + |StateAfter(trace).outstanding|
  {
    if trace != [] {
      var init, e := trace[..|trace| - 1], trace[|trace| - 1];
      RequestsConserved(init);
      var m := StateAfter(init).outstanding;
      if e.Answered? {
        assert m == (m - {e.token})[e.token := m[e.token]];
      }
    }
  }

  lemma Extended(trace: seq<Event>, e: Event)
    requires Legal(trace) && Allowed(StateAfter(trace), e)
    ensures Legal(trace + [e]) && StateAfter(trace + [e]) == After(StateAfter(trace), e)
  {
    assert (trace + [e])[..|trace|] == trace;
  }
}
