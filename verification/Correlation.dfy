/** The correlation table: outstanding request ids and their futures, first reply wins. */
module Correlation {
  import opened Results

  type Id = string

  /** A table's state.  Futures are numbered in the order they were created; `futures`
      holds each one's result, if it has completed. */
  datatype Table<T> = Table(pending: map<Id, nat>, futures: seq<Option<T>>)

  predicate SafeChar(c: char) {
    'A' <= c <= 'Z' || 'a' <= c <= 'z' || '0' <= c <= '9' || c == '.' || c == '_' || c == ':' || c == '-'
  }

  /** What `validate_id` lets through: 1 to 255 safe characters.  The pattern's `$` also
      matches before a final newline, so such an id passes as well. */
  predicate ValidId(id: Id) {
    && 1 <= |id| <= 255
    && var n := if id[|id| - 1] == '\n' then |id| - 1 else |id|;
       1 <= n && forall i :: 0 <= i < n ==> SafeChar(id[i])
  }

  /** Which ids are valid: 1 to 255 characters, all of them safe but for one newline that may
      follow at least one other. */
  lemma ValidIdIff(id: Id)
    ensures ValidId(id) <==>
              && 1 <= |id| <= 255
              && ((forall i :: 0 <= i < |id| ==> SafeChar(id[i]))
                  || (2 <= |id| && id[|id| - 1] == '\n' && forall i :: 0 <= i < |id| - 1 ==> SafeChar(id[i])))
  {
    assert !SafeChar('\n');
    if 1 <= |id| && id[|id| - 1] == '\n' {
      assert !SafeChar(id[|id| - 1]);
    }
  }

  /** A valid id is made of safe characters if and only if it does not end in a newline. */
  lemma ValidIdIsSafe(id: Id)
    requires ValidId(id)
    ensures (forall i :: 0 <= i < |id| ==> SafeChar(id[i])) <==> id[|id| - 1] != '\n'
  {
    var last := |id| - 1;
    assert !SafeChar('\n');
    if id[last] == '\n' {
      assert !SafeChar(id[last]);
    }
  }

  /** Such an id. */
  lemma NewlineIdIsValid()
    ensures ValidId("a\n") && !SafeChar("a\n"[1])
  {
    assert "a\n"[0] == 'a' && "a\n"[1] == '\n';
  }

  predicate Valid<T>(t: Table<T>) {
    && (forall id :: id in t.pending ==> t.pending[id] < |t.futures| && t.futures[t.pending[id]].None?)
    && (forall a, b :: a in t.pending && b in t.pending && a != b ==> t.pending[a] != t.pending[b])
  }

  /** `set_result` or `set_exception` on a future that may already be done. */
  function Complete<T>(futures: seq<Option<T>>, handle: nat, result: T): seq<Option<T>>
    requires handle < |futures|
  {
    if futures[handle].None? then futures[handle := Some(result)] else futures
  }

  function Register<T>(t: Table<T>, id: Id): Table<T> {
    Table(t.pending[id := |t.futures|], t.futures + [None])
  }

  /** Both `resolve` and `fail`: pop the id, if it is there, and complete its future. */
  function Finish<T>(t: Table<T>, id: Id, result: T): Table<T>
    requires Valid(t)
  {
    if id in t.pending then Table(t.pending - {id}, Complete(t.futures, t.pending[id], result)) else t
  }

  function DiscardAll<T>(t: Table<T>, result: T): Table<T>
    requires Valid(t)
  {
    Table(map[], seq(|t.futures|, i requires 0 <= i < |t.futures| =>
      if i in t.pending.Values && t.futures[i].None? then Some(result) else t.futures[i]))
  }

  // ---------------------------------------------------------------- laws

  /** No future that is done ever changes: every future completes at most once. */
  ghost predicate Keeps<T>(t: Table<T>, t': Table<T>) {
    && |t.futures| <= |t'.futures|
    && forall h :: 0 <= h < |t.futures| && t.futures[h].Some? ==> t'.futures[h] == t.futures[h]
  }

  /** Finishing an id completes its own future, with the given result, and no other; an id
      that is not pending is discarded silently. */
  lemma FinishLaw<T>(t: Table<T>, id: Id, result: T)
    requires Valid(t)
    ensures var t' := Finish(t, id, result);
      && Valid(t') && Keeps(t, t') && |t'.futures| == |t.futures|
      && t'.pending == t.pending - {id}
      && forall h :: 0 <= h < |t.futures| ==>
           t'.futures[h] == if id in t.pending && h == t.pending[id] then Some(result) else t.futures[h]
  {
    if id !in t.pending {
      assert t.pending - {id} == t.pending;
    }
  }

  lemma RegisterLaw<T>(t: Table<T>, id: Id)
    requires Valid(t) && id !in t.pending
    ensures var t' := Register(t, id);
      && Valid(t') && Keeps(t, t') && t'.pending.Keys == t.pending.Keys + {id}
      && t'.pending[id] == |t.futures| && |t'.futures| == |t.futures| + 1
      && forall other :: other in t.pending ==> t'.pending[other] == t.pending[other]
  {}

  /** Discarding completes every pending future, and those only. */
  lemma DiscardLaw<T>(t: Table<T>, result: T)
    requires Valid(t)
    ensures var t' := DiscardAll(t, result);
      && Valid(t') && Keeps(t, t') && |t'.futures| == |t.futures| && t'.pending == map[]
      && (forall id :: id in t.pending ==> t'.futures[t.pending[id]] == Some(result))
      && forall h :: 0 <= h < |t.futures| && h !in t.pending.Values ==> t'.futures[h] == t.futures[h]
  {
    forall id | id in t.pending
      ensures t.pending[id] in t.pending.Values
    {}
  }

  // ---------------------------------------------------------------- the table object

  class CorrelationTable<T> {
    var pending: map<Id, nat>
    var futures: seq<Option<T>>

    ghost function State(): Table<T>
      reads this
    {
      Table(pending, futures)
    }

    constructor ()
      ensures State() == Table(map[], [])
    {
      pending, futures := map[], [];
    }

    /** Register a caller's id: rejected if malformed or already outstanding. */
    method RegisterId(id: Id) returns (handle: Option<nat>)
      modifies this
      ensures handle.Some? <==> ValidId(id) && id !in old(pending)
      ensures handle.Some? ==> handle.value == |old(futures)| && State() == Register(old(State()), id)
      ensures handle.None? ==> State() == old(State())
    {
      if !ValidId(id) || id in pending {
        return None;
      }
      handle := Some(|futures|);
      pending := pending[id := |futures|];
      futures := futures + [None];
    }

    /** Register without an id of the caller's: ids are generated until one is not
        outstanding.  `supply` is what the generator gives, one after another. */
    method RegisterGenerated(supply: seq<Id>) returns (id: Id, handle: nat)
      requires exists k :: 0 <= k < |supply| && supply[k] !in pending
      modifies this
      ensures id in supply && id !in old(pending)
      ensures handle == |old(futures)| && State() == Register(old(State()), id)
      ensures exists k :: 0 <= k < |supply| && supply[k] == id && forall j :: 0 <= j < k ==> supply[j] in old(pending)
    {
      var k := 0;
      while supply[k] in pending
        invariant 0 <= k < |supply| && forall j :: 0 <= j < k ==> supply[j] in pending
        invariant exists j :: k <= j < |supply| && supply[j] !in pending
        invariant State() == old(State())
        decreases |supply| - k
      {
        k := k + 1;
      }
      id := supply[k];
      handle := |futures|;
      pending := pending[id := handle];
      futures := futures + [None];
    }

    /** Resolve or fail an id; true if it was outstanding. */
    method FinishId(id: Id, result: T) returns (found: bool)
      requires Valid(State())
      modifies this
      ensures State() == Finish(old(State()), id, result) && found == (id in old(pending))
    {
      if id !in pending {
        return false;
      }
      var handle := pending[id];
      pending := pending - {id};
      if futures[handle].None? {
        futures := futures[handle := Some(result)];
      }
      return true;
    }

    /** Complete every pending future, one by one, then forget them. */
    method DiscardAllIds(result: T)
      requires Valid(State())
      modifies this
      ensures State() == DiscardAll(old(State()), result)
    {
      ghost var before := State();
      var todo := pending.Values;
      while todo != {}
        invariant todo <= before.pending.Values && pending == before.pending && |futures| == |before.futures|
        invariant forall h :: 0 <= h < |futures| ==>
          futures[h] == if h in before.pending.Values && h !in todo && before.futures[h].None?
                        then Some(result) else before.futures[h]
        decreases todo
      {
        var handle :| handle in todo;
        todo := todo - {handle};
        if futures[handle].None? {
          futures := futures[handle := Some(result)];
        }
      }
      pending := map[];
      assert futures == DiscardAll(before, result).futures;
    }
  }
}
