/** The timer queue of the server (the-great-approximator/server_events.cpp): a multimap from
    deadlines to callbacks, so a queue in which equal deadlines keep insertion order.  A
    callback is represented by the event it was created for. */
module Events {
  datatype Timed<E> = Timed(due: int, event: E)

  ghost predicate Sorted<E>(es: seq<Timed<E>>) {
    forall i, j :: 0 <= i < j < |es| ==> es[i].due <= es[j].due
  }

  /** std::multimap::upper_bound: how many events are not due after `due`. */
  function UpperBound<E>(es: seq<Timed<E>>, due: int): (k: nat)
    ensures k <= |es|
    ensures forall i :: 0 <= i < k ==> es[i].due <= due
    ensures k < |es| ==> es[k].due > due
  {
    if es == [] || es[0].due > due then 0 else 1 + UpperBound(es[1..], due)
  }

  /** std::multimap::insert: after every event with an equal deadline. */
  function Insert<E>(es: seq<Timed<E>>, e: Timed<E>): seq<Timed<E>> {
    var k := UpperBound(es, e.due);
    es[..k] + [e] + es[k..]
  }

  lemma InsertSorted<E>(es: seq<Timed<E>>, e: Timed<E>)
    requires Sorted(es)
    ensures Sorted(Insert(es, e))
  {
  }

  lemma InsertMembers<E>(es: seq<Timed<E>>, e: Timed<E>)
    ensures forall x :: x in Insert(es, e) <==> x in es || x == e
  {
    var k := UpperBound(es, e.due);
    assert es == es[..k] + es[k..];
  }

  /** An event that is due no earlier than all others goes last. */
  lemma InsertLast<E>(es: seq<Timed<E>>, e: Timed<E>)
    requires forall i :: 0 <= i < |es| ==> es[i].due <= e.due
    ensures Insert(es, e) == es + [e]
  {
  }

  function Select<E>(es: seq<Timed<E>>, p: E -> bool): (r: seq<Timed<E>>)
    ensures forall i :: 0 <= i < |r| ==> p(r[i].event)
  {
    if es == [] then []
    else (if p(es[0].event) then [es[0]] else []) + Select(es[1..], p)
  }

  lemma {:induction false} SelectConcat<E>(a: seq<Timed<E>>, b: seq<Timed<E>>, p: E -> bool)
    ensures Select(a + b, p) == Select(a, p) + Select(b, p)
  {
    if a == [] {
      assert a + b == b;
    } else {
      assert (a + b)[1..] == a[1..] + b;
      SelectConcat(a[1..], b, p);
    }
  }

  lemma {:induction false} SelectNone<E>(es: seq<Timed<E>>, p: E -> bool)
    requires forall i :: 0 <= i < |es| ==> !p(es[i].event)
    ensures Select(es, p) == []
  {
    if es != [] {
      SelectNone(es[1..], p);
    }
  }

  lemma InsertBetween<E>(a: seq<Timed<E>>, b: seq<Timed<E>>, e: Timed<E>)
    requires forall i :: 0 <= i < |a| ==> a[i].due <= e.due
    requires forall i :: 0 <= i < |b| ==> b[i].due > e.due
    ensures Insert(a + b, e) == a + [e] + b
  {
    var es := a + b;
    assert forall i :: 0 <= i < |a| ==> es[i] == a[i];
    assert b != [] ==> es[|a|] == b[0];
    assert UpperBound(es, e.due) == |a|;
  }

  lemma SelectFirst<E>(e: Timed<E>, b: seq<Timed<E>>, p: E -> bool)
    ensures Select([e] + b, p) == if p(e.event) then [e] + Select(b, p) else Select(b, p)
  {
    assert ([e] + b)[1..] == b;
  }

  lemma SelectParts<E>(a: seq<Timed<E>>, e: Timed<E>, b: seq<Timed<E>>, p: E -> bool)
    ensures p(e.event) ==> Select(a + [e] + b, p) == Select(a, p) + [e] + Select(b, p)
    ensures !p(e.event) ==> Select(a + [e] + b, p) == Select(a + b, p)
    ensures Select(a + b, p) == Select(a, p) + Select(b, p)
  {
    SelectConcat(a, b, p);
    Regroup(a, e, b);
    SelectConcat(a, [e] + b, p);
    SelectFirst(e, b, p);
    Regroup(Select(a, p), e, Select(b, p));
  }

  lemma Regroup<T>(a: seq<T>, e: T, b: seq<T>)
    ensures a + [e] + b == a + ([e] + b)
  {
  }

  lemma {:induction false} SelectUpTo<E>(es: seq<Timed<E>>, p: E -> bool, due: int)
    requires forall i :: 0 <= i < |es| ==> es[i].due <= due
    ensures forall i :: 0 <= i < |Select(es, p)| ==> Select(es, p)[i].due <= due
  {
    if es != [] {
      SelectUpTo(es[1..], p, due);
    }
  }

  lemma {:induction false} SelectAfter<E>(es: seq<Timed<E>>, p: E -> bool, due: int)
    requires forall i :: 0 <= i < |es| ==> es[i].due > due
    ensures forall i :: 0 <= i < |Select(es, p)| ==> Select(es, p)[i].due > due
  {
    if es != [] {
      SelectAfter(es[1..], p, due);
    }
  }

  /** Inserting an event and looking only at some events are interchangeable: no other event
      disturbs the order among the selected ones. */
  lemma SelectInsert<E>(es: seq<Timed<E>>, e: Timed<E>, p: E -> bool)
    requires Sorted(es)
    ensures Select(Insert(es, e), p) == if p(e.event) then Insert(Select(es, p), e) else Select(es, p)
  {
    var k := UpperBound(es, e.due);
    SelectInsertAt(es[..k], es[k..], e, p);
    assert es == es[..k] + es[k..];
  }

  lemma SelectInsertAt<E>(a: seq<Timed<E>>, b: seq<Timed<E>>, e: Timed<E>, p: E -> bool)
    requires forall i :: 0 <= i < |a| ==> a[i].due <= e.due
    requires forall i :: 0 <= i < |b| ==> b[i].due > e.due
    ensures Select(a + [e] + b, p) == if p(e.event) then Insert(Select(a + b, p), e) else Select(a + b, p)
  {
    SelectParts(a, e, b, p);
    if p(e.event) {
      SelectUpTo(a, p, e.due);
      SelectAfter(b, p, e.due);
      InsertBetween(Select(a, p), Select(b, p), e);
    }
  }

  class EventManager<E> {
    var events: seq<Timed<E>>

    constructor ()
      ensures events == []
    {
      events := [];
    }

    method AddEvent(event: E, deadline: int)
      modifies this
      ensures events == Insert(old(events), Timed(deadline, event))
      ensures old(Sorted(events)) ==> Sorted(events)
    {
      if Sorted(events) {
        InsertSorted(events, Timed(deadline, event));
      }
      events := Insert(events, Timed(deadline, event));
    }

    /** Removes the first event of the queue. */
    method EraseFirst()
      requires events != []
      modifies this
      ensures events == old(events)[1..]
    {
      events := events[1..];
    }

    method Reset()
      modifies this
      ensures events == []
    {
      events := [];
    }
  }
}
