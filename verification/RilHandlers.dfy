/** The RIL client's handler tables: 32 slots from request (or unsolicited response) id to handler. */
module RilHandlers {
  import opened RilSlots

  type Handler = nat           // a callback; 0 is NULL
  const NULL: Handler := 0

  const POOL_SIZE := 32

  const ERR_SUCCESS := 0
  const ERR_AGAIN := 1
  const ERR_INVAL := 3
  const ERR_IO := 5
  const ERR_RESOURCE := 6
  const ERR_UNKNOWN := 7

  /** What registration means: a bounded map; NULL unregisters, and id 0 names no entry. */
  function Updated(m: map<nat, Handler>, id: nat, handler: Handler): map<nat, Handler> {
    if id == 0 || Full(m, id, handler) then m
    else if handler == NULL then m - {id}
    else m[id := handler]
  }

  predicate Full(m: map<nat, Handler>, id: nat, handler: Handler) {
    handler != NULL && id !in m && |m| == POOL_SIZE
  }

  /** The handler registered for an id, NULL if there is none. */
  function Lookup(m: map<nat, Handler>, id: nat): Handler {
    if id in m then m[id] else NULL
  }

  /** The slot writes that Register makes, seen on the map. */
  lemma UpdatedByMove(m: map<nat, Handler>, id: nat, handler: Handler)
    requires 0 !in m && |m| <= POOL_SIZE
    ensures handler == NULL ==> Moved(m, id, 0, NULL, 0) == Updated(m, id, handler)
    ensures handler == NULL && id !in m ==> Updated(m, id, handler) == m
    ensures handler != NULL && (id == 0 || id in m) ==> Moved(m, id, id, handler, 0) == Updated(m, id, handler)
    ensures handler != NULL && id !in m && |m| < POOL_SIZE ==> Moved(m, 0, id, handler, 0) == Updated(m, id, handler)
    ensures Full(m, id, handler) ==> Updated(m, id, handler) == m
    ensures Full(m, id, handler) <==> handler != NULL && id !in m && |m| == POOL_SIZE
  {
    assert m - {0} == m;
    if id in m {
      assert (m - {id})[id := handler] == m[id := handler];
    }
  }

  /** What the first slot with this id holds; for id 0 that is a free slot, which may still hold what
    * a registration of id 0 left there. */
  function FirstWith(s: seq<Slot<nat, Handler>>, id: nat): Handler {
    if s == [] then NULL else if s[0].key == id then s[0].value else FirstWith(s[1..], id)
  }

  lemma FirstIsEntry(s: seq<Slot<nat, Handler>>, id: nat)
    requires Distinct(s, 0)
    ensures id != 0 ==> FirstWith(s, id) == Lookup(Entries(s, 0), id)
  {
    InEntries(s, 0);
    FoundFirst(s, id);
  }

  lemma {:induction false} FoundFirst(s: seq<Slot<nat, Handler>>, id: nat)
    ensures || ((forall i :: 0 <= i < |s| ==> s[i].key != id) && FirstWith(s, id) == NULL)
            || (exists i :: 0 <= i < |s| && s[i].key == id && FirstWith(s, id) == s[i].value)
  {
    if s != [] && s[0].key != id {
      FoundFirst(s[1..], id);
      if i :| 0 <= i < |s[1..]| && s[1..][i].key == id && FirstWith(s[1..], id) == s[1..][i].value {
        assert s[i + 1] == s[1..][i];
      } else {
        forall i | 0 <= i < |s| ensures s[i].key != id {
          if i > 0 { assert s[i] == s[1..][i - 1]; }
        }
      }
    }
  }

  class HandlerTable {
    const slots: array<Slot<nat, Handler>>

    ghost predicate Valid()
      reads slots
    {
      && slots.Length == POOL_SIZE
      && Distinct(slots[..], 0)
      && forall i :: 0 <= i < POOL_SIZE && slots[i].key != 0 ==> slots[i].value != NULL
    }

    /** The map this table stands for. */
    ghost function Handlers(): (m: map<nat, Handler>)
      reads slots
      requires Valid()
    {
      Entries(slots[..], 0)
    }

    constructor ()
      ensures Valid() && fresh(slots) && Handlers() == map[]
    {
      slots := new Slot[POOL_SIZE](_ => Slot(0, NULL));
    }

    /** RegisterRequestCompleteHandler and RegisterUnsolicitedHandler. */
    method Register(id: nat, handler: Handler) returns (err: int)
      requires Valid()
      modifies slots
      ensures Valid() && Handlers() == Updated(old(Handlers()), id, handler)
      ensures err == if Full(old(Handlers()), id, handler) then ERR_RESOURCE else ERR_SUCCESS
    {
      var matchSlot, firstEmptySlot := Search(id);
      Occupied(id, matchSlot, firstEmptySlot);
      ghost var m := Handlers();
      hide *;
      UpdatedByMove(m, id, handler);
      if handler == NULL {
        if matchSlot >= 0 {
          Write(matchSlot, 0, NULL);
        }
        return ERR_SUCCESS;
      }
      if matchSlot >= 0 {
        Write(matchSlot, id, handler);
      } else if firstEmptySlot >= 0 {
        Write(firstEmptySlot, id, handler);
      } else {
        return ERR_RESOURCE;
      }
      return ERR_SUCCESS;
    }

    /** The last slot with this id and the first free one, -1 if there is none. */
    method Search(id: nat) returns (matchSlot: int, firstEmptySlot: int)
      requires slots.Length == POOL_SIZE
      ensures -1 <= matchSlot < POOL_SIZE && -1 <= firstEmptySlot < POOL_SIZE
      ensures if matchSlot >= 0 then slots[matchSlot].key == id
              else forall j :: 0 <= j < POOL_SIZE ==> slots[j].key != id
      ensures if firstEmptySlot >= 0 then slots[firstEmptySlot].key == 0
              else forall j :: 0 <= j < POOL_SIZE ==> slots[j].key != 0
    {
      matchSlot, firstEmptySlot := -1, -1;
      for i := 0 to POOL_SIZE
        invariant -1 <= matchSlot < i && -1 <= firstEmptySlot < i
        invariant matchSlot >= 0 ==> slots[matchSlot].key == id
        invariant matchSlot == -1 ==> forall j :: 0 <= j < i ==> slots[j].key != id
        invariant firstEmptySlot >= 0 ==> slots[firstEmptySlot].key == 0
        invariant firstEmptySlot == -1 ==> forall j :: 0 <= j < i ==> slots[j].key != 0
      {
        if id == slots[i].key {
          matchSlot := i;
        }
        if firstEmptySlot == -1 && slots[i].key == 0 {
          firstEmptySlot := i;
        }
      }
    }

    lemma Occupied(id: nat, i: int, free: int)
      requires Valid() && -1 <= i < POOL_SIZE && -1 <= free < POOL_SIZE
      requires if i >= 0 then slots[i].key == id else forall j :: 0 <= j < POOL_SIZE ==> slots[j].key != id
      requires if free >= 0 then slots[free].key == 0 else forall j :: 0 <= j < POOL_SIZE ==> slots[j].key != 0
      ensures id != 0 ==> (id in Handlers() <==> i >= 0)
      ensures id == 0 ==> id !in Handlers()
      ensures i >= 0 && id != 0 ==> forall j :: 0 <= j < POOL_SIZE && j != i ==> slots[j].key != id
      ensures |Handlers()| <= POOL_SIZE && (|Handlers()| == POOL_SIZE <==> free == -1)
    {
      Occupancy(slots[..], 0);
      InEntries(slots[..], 0);
      var m := Handlers();
      if i >= 0 {
        assert slots[..][i].key == id;
        forall j | 0 <= j < POOL_SIZE && j != i && id != 0 ensures slots[j].key != id {
          assert slots[..][j].key == slots[j].key;
        }
      }
      if id in m {
        var j :| 0 <= j < |slots[..]| && slots[..][j].key == id;
        assert slots[j].key == id;
      }
    }

    /** Writes one slot: the id of another slot, if not zero, must not be repeated. */
    method Write(i: nat, id: nat, handler: Handler)
      requires Valid() && i < POOL_SIZE && (id != 0 ==> handler != NULL)
      requires forall j :: 0 <= j < POOL_SIZE && j != i ==> slots[j].key != id || id == 0
      modifies slots
      ensures Valid() && Handlers() == Moved(old(Handlers()), old(slots[i].key), id, handler, 0)
    {
      Stored(slots[..], i, id, handler, 0);
      slots[i] := Slot(id, handler);
      assert slots[..] == old(slots[..])[i := Slot(id, handler)];
    }

    /** FindUnsolHandler, and the search for a request's handler in FindReqHandler. */
    method Find(id: nat) returns (handler: Handler)
      requires Valid()
      ensures handler == FirstWith(slots[..], id)
      ensures id != 0 ==> handler == Lookup(Handlers(), id)
    {
      FirstIsEntry(slots[..], id);
      for j := 0 to POOL_SIZE
        invariant FirstWith(slots[..], id) == FirstWith(slots[..][j..], id)
      {
        if slots[j].key == id {
          return slots[j].value;
        }
      }
      return NULL;
    }
  }
}
