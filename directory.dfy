/** The guild's channel directory as a sequence of channels, in the order the
    platform's channel cache iterates them. A ticket has no record of its
    own: it is the channel whose topic holds the requester's id and whose
    parent is the configured ticket category. */
module Directory {
  import opened Platform

  /** The duplicate test of the open-ticket button. */
  predicate IsTicketOf(c: Channel, requester: Id, category: Id) {
    c.topic == Some(requester) && c.parentId == Some(category)
  }

  /** `channels.find(c => IsTicketOf(c, requester, category))`, as an index:
      the first ticket of `requester` under `category`, if there is one. */
  function FindTicket(chs: seq<Channel>, requester: Id, category: Id): (found: Option<nat>)
    ensures found.Some? ==> found.value < |chs| && IsTicketOf(chs[found.value], requester, category)
    ensures found.Some? ==> forall j :: 0 <= j < found.value ==> !IsTicketOf(chs[j], requester, category)
    ensures found.None? <==> forall j :: 0 <= j < |chs| ==> !IsTicketOf(chs[j], requester, category)
  {
    if chs == [] then None
    else if IsTicketOf(chs[0], requester, category) then Some(0)
    else
      match FindTicket(chs[1..], requester, category)
      case None => None
      case Some(k) => Some(k + 1)
  }

  /** `client.channels.fetch(id)`, with a failed fetch as None. */
  function Lookup(chs: seq<Channel>, id: Id): (found: Option<Channel>)
    ensures found.Some? ==> found.value in chs && found.value.id == id
    ensures found.None? <==> forall c :: c in chs ==> c.id != id
  {
    if chs == [] then None
    else if chs[0].id == id then Some(chs[0])
    else Lookup(chs[1..], id)
  }

  /** The directory after the channel with this id was deleted; deleting a
      channel that is already gone changes nothing. */
  function Without(chs: seq<Channel>, id: Id): (rest: seq<Channel>)
    ensures forall c :: c in rest <==> c in chs && c.id != id
    ensures |rest| <= |chs|
    ensures (forall c :: c in chs ==> c.id != id) ==> rest == chs
  {
    if chs == [] then []
    else if chs[0].id == id then Without(chs[1..], id)
    else [chs[0]] + Without(chs[1..], id)
  }

  /** No two channels share an id. */
  predicate DistinctIds(chs: seq<Channel>) {
    forall i, j :: 0 <= i < j < |chs| ==> chs[i].id != chs[j].id
  }

  /** Two channels are tickets of one requester under `category`. */
  predicate SameTicket(a: Channel, b: Channel, category: Id) {
    a.parentId == Some(category) && b.parentId == Some(category) && a.topic.Some? && a.topic == b.topic
  }

  /** The identity invariant: under the ticket category, at most one channel
      carries any given requester id as its topic. */
  predicate UniqueTickets(chs: seq<Channel>, category: Id) {
    forall i, j :: 0 <= i < j < |chs| ==> !SameTicket(chs[i], chs[j], category)
  }

  /** Adding a ticket for a requester who has none keeps tickets unique. */
  lemma AddTicketKeepsUnique(chs: seq<Channel>, category: Id, ch: Channel)
    requires UniqueTickets(chs, category)
    requires ch.topic.Some? && FindTicket(chs, ch.topic.value, category).None?
    ensures UniqueTickets(chs + [ch], category)
  {
  }

  /** Once a requester's ticket exists, the duplicate test finds one. */
  lemma {:induction false} AddedTicketIsFound(chs: seq<Channel>, category: Id, ch: Channel)
    requires ch.topic.Some? && ch.parentId == Some(category)
    ensures FindTicket(chs + [ch], ch.topic.value, category).Some?
  {
    assert IsTicketOf((chs + [ch])[|chs|], ch.topic.value, category);
  }

  lemma {:induction false} WithoutKeepsDistinct(chs: seq<Channel>, id: Id)
    requires DistinctIds(chs)
    ensures DistinctIds(Without(chs, id))
  {
    if chs != [] {
      WithoutKeepsDistinct(chs[1..], id);
      if chs[0].id != id {
        var rest := Without(chs[1..], id);
        forall j | 0 <= j < |rest|
          ensures chs[0].id != rest[j].id
        {
          assert rest[j] in chs[1..];
        }
      }
    }
  }

  lemma {:induction false} WithoutKeepsUnique(chs: seq<Channel>, id: Id, category: Id)
    requires UniqueTickets(chs, category)
    ensures UniqueTickets(Without(chs, id), category)
  {
    if chs != [] {
      assert UniqueTickets(chs[1..], category) by {
        forall i, j | 0 <= i < j < |chs| - 1
          ensures !SameTicket(chs[1..][i], chs[1..][j], category)
        {
          assert chs[1..][i] == chs[i + 1] && chs[1..][j] == chs[j + 1];
        }
      }
      WithoutKeepsUnique(chs[1..], id, category);
      if chs[0].id != id {
        var rest := Without(chs[1..], id);
        forall j | 0 <= j < |rest|
          ensures !SameTicket(chs[0], rest[j], category)
        {
          assert rest[j] in chs[1..];
          var k :| 0 <= k < |chs| - 1 && chs[1..][k] == rest[j];
          assert chs[k + 1] == rest[j];
        }
      }
    }
  }

  /** Deleting a requester's ticket channel releases the identity binding:
      the duplicate test no longer finds a ticket for that requester. */
  lemma DeletedTicketIsReleased(chs: seq<Channel>, category: Id, i: nat)
    requires DistinctIds(chs) && UniqueTickets(chs, category)
    requires i < |chs| && chs[i].topic.Some? && chs[i].parentId == Some(category)
    ensures FindTicket(Without(chs, chs[i].id), chs[i].topic.value, category).None?
  {
  }
}
