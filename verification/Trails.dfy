/** Append-only event trails about numbered subjects. */
module Trails {
  import opened Options

  datatype Event<K> = Event(subject: nat, kind: K, actor: string)

  /** The kinds of the events about one subject, in order. */
  function EventsOf<K>(trail: seq<Event<K>>, id: nat): seq<K> {
    if trail == [] then []
    else
      var last := trail[|trail| - 1];
      EventsOf(trail[..|trail| - 1], id) + (if last.subject == id then [last.kind] else [])
  }

  lemma {:induction false} EventAppended<K>(trail: seq<Event<K>>, event: Event<K>, id: nat)
    ensures EventsOf(trail + [event], id) == EventsOf(trail, id) + (if event.subject == id then [event.kind] else [])
  {
    assert (trail + [event])[..|trail|] == trail;
  }

  lemma {:induction false} NoEventsYet<K>(trail: seq<Event<K>>, id: nat)
    requires forall k :: 0 <= k < |trail| ==> trail[k].subject != id
    ensures EventsOf(trail, id) == []
  {
    if trail != [] { NoEventsYet(trail[..|trail| - 1], id); }
  }

  /** Who caused the last event of a kind about one subject. */
  function ActorOf<K(==)>(trail: seq<Event<K>>, id: nat, kind: K): Option<string> {
    if trail == [] then None
    else
      var last := trail[|trail| - 1];
      if last.subject == id && last.kind == kind then Some(last.actor) else ActorOf(trail[..|trail| - 1], id, kind)
  }

  lemma {:induction false} ActorAppended<K>(trail: seq<Event<K>>, event: Event<K>, id: nat, kind: K)
    ensures ActorOf(trail + [event], id, kind)
            == if event.subject == id && event.kind == kind then Some(event.actor) else ActorOf(trail, id, kind)
  {
    assert (trail + [event])[..|trail|] == trail;
  }

  lemma {:induction false} NoActorYet<K>(trail: seq<Event<K>>, id: nat, kind: K)
    requires forall k :: 0 <= k < |trail| ==> trail[k].subject != id
    ensures ActorOf(trail, id, kind) == None
  {
    if trail != [] { NoActorYet(trail[..|trail| - 1], id, kind); }
  }
}
