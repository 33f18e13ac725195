/** The bounded event list of the pool: `eventLocked` shifts it in place. */
module EventLog {

  const LIMIT: nat := 100

  /** The newest entries of a history, at most `LIMIT` of them. */
  function Newest<T>(history: seq<T>): (r: seq<T>)
    ensures |r| == if |history| < LIMIT then |history| else LIMIT
  {
    if |history| <= LIMIT then history else history[|history| - LIMIT..]
  }

  /** They are the last hundred, or all there are, in order. */
  lemma {:induction false} NewestMeaning<T>(history: seq<T>)
    ensures var r := Newest(history);
      && |r| == (if |history| < 100 then |history| else 100)
      && forall i :: 0 <= i < |r| ==> r[i] == history[|history| - |r| + i]
  {}

  class Events<T(0)> {
    const items: array<T>
    var len: nat
    ghost var history: seq<T>

    ghost predicate Valid()
      reads this, items
    {
      items.Length == LIMIT && len <= LIMIT && items[..len] == Newest(history)
    }

    constructor ()
      ensures Valid() && fresh(items) && history == []
    {
      items := new T[LIMIT];
      len, history := 0, [];
    }

    /** Moves every item of a full list one place down. */
    method Shift()
      requires items.Length == LIMIT
      modifies items
      ensures items[..LIMIT - 1] == old(items[..])[1..]
    {
      for i := 0 to LIMIT - 1
        invariant forall j :: 0 <= j < i ==> items[j] == old(items[j + 1])
        invariant forall j :: i <= j < LIMIT ==> items[j] == old(items[j])
      {
        items[i] := items[i + 1];
      }
    }

    /** A full list loses its oldest message. */
    method MakeRoom()
      requires Valid()
      modifies this`len, items
      ensures len < LIMIT && items.Length == LIMIT
      ensures items[..len] == Rest(Newest(history))
    {
      if len == LIMIT {
        assert items[..] == items[..len];
        Shift();
        len := LIMIT - 1;
      }
    }

    /** Appends a message; a full list first loses its oldest one. */
    method Add(message: T)
      requires Valid()
      modifies this, items
      ensures Valid() && history == old(history) + [message]
    {
      NewestGrows(history, message);
      MakeRoom();
      Append(message);
      history := history + [message];
    }

    method Append(message: T)
      requires items.Length == LIMIT && len < LIMIT
      modifies this`len, items
      ensures len == old(len) + 1 && items[..len] == old(items[..len]) + [message]
    {
      items[len] := message;
      len := len + 1;
    }
  }

  /** What is kept of a list before another message. */
  function Rest<T>(list: seq<T>): seq<T> {
    if |list| == LIMIT then list[1..] else list
  }

  lemma NewestGrows<T>(history: seq<T>, message: T)
    ensures Newest(history + [message]) == Rest(Newest(history)) + [message]
  {}
}
