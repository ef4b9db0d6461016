/**
 * The load step of the dashboard: three requests awaited jointly, the task
 * list grouped, and the page state replaced only when all three succeeded.
 * The network, the event loop and the framework's state hooks are not
 * modelled: each request is given as the way it settled, and the page state
 * before and after the load are values.
 */
module Fetch {
  import opened Wrappers
  import opened Entities
  import opened Grouping

  /**
   * How one request settled. `Rejected` is a transport failure or a body that
   * is not JSON; an HTTP error status does not reject, its body is parsed like
   * any other. `Resolved(None)` is a `null` (or otherwise falsy) JSON body.
   */
  datatype Settled<T> = Rejected | Resolved(body: Option<seq<T>>)

  /** The three parsed bodies once every request has resolved. */
  datatype Bodies = Bodies(
    tasks: Option<seq<Task>>,
    contacts: Option<seq<Contact>>,
    deals: Option<seq<Deal>>)

  /** The page state: the grouped tasks, the contacts and the deals. */
  datatype State = State(tasks: Grouped, contacts: seq<Contact>, deals: seq<Deal>)

  /** The state the page starts with: three empty buckets, no contacts, no deals. */
  function Initial(): (s: State)
    ensures s.tasks.Size() == 0 && |s.contacts| == 0 && |s.deals| == 0
  {
    State(Empty, [], [])
  }

  /** A `null` body read as the empty list; a list body is kept as it is. */
  function OrEmpty<T>(body: Option<seq<T>>): (r: seq<T>)
    ensures body.None? ==> r == []
    ensures body.Some? ==> r == body.value
  {
    match body
    case None => []
    case Some(items) => items
  }

  /**
   * The joint await of the three requests: it yields the three bodies when
   * every request resolved, and fails as a whole when any one was rejected.
   */
  function JoinAll(tasks: Settled<Task>, contacts: Settled<Contact>, deals: Settled<Deal>): (r: Option<Bodies>)
    ensures r.Some? <==> tasks.Resolved? && contacts.Resolved? && deals.Resolved?
    ensures r.Some? ==> r.value.tasks == tasks.body && r.value.contacts == contacts.body
                        && r.value.deals == deals.body
  {
    if tasks.Rejected? || contacts.Rejected? || deals.Rejected? then None
    else Some(Bodies(tasks.body, contacts.body, deals.body))
  }

  /**
   * The specification of the load: the state after it, given the state before
   * it. A rejected request leaves the state as it was; otherwise the buckets
   * group the fetched tasks and the lists are the fetched ones.
   */
  function Load(prev: State, tasks: Settled<Task>, contacts: Settled<Contact>, deals: Settled<Deal>): (next: State)
    ensures tasks.Rejected? || contacts.Rejected? || deals.Rejected? ==> next == prev
    ensures tasks.Resolved? && contacts.Resolved? && deals.Resolved? ==>
      next == State(Group(OrEmpty(tasks.body)), OrEmpty(contacts.body), OrEmpty(deals.body))
  {
    match JoinAll(tasks, contacts, deals)
    case None => prev
    case Some(b) => State(Group(OrEmpty(b.tasks)), OrEmpty(b.contacts), OrEmpty(b.deals))
  }

  /**
   * The load as the page runs it: await the three requests, group the tasks
   * with the grouping loop and replace the state; on any failure the error is
   * only logged and the state is left as it was.
   */
  method FetchAll(prev: State, tasks: Settled<Task>, contacts: Settled<Contact>, deals: Settled<Deal>)
    returns (next: State)
    ensures next == Load(prev, tasks, contacts, deals)
  {
    var joined := JoinAll(tasks, contacts, deals);
    match joined
    case None =>
      next := prev;
    case Some(b) =>
      var grouped := GroupTasks(OrEmpty(b.tasks));
      next := State(grouped, OrEmpty(b.contacts), OrEmpty(b.deals));
  }

  /**
   * All or nothing: when any request is rejected the state stays exactly as
   * it was, so a page that had not loaded still shows three empty buckets,
   * no contacts and no deals.
   */
  lemma FailureKeepsState(prev: State, tasks: Settled<Task>, contacts: Settled<Contact>, deals: Settled<Deal>)
    requires tasks.Rejected? || contacts.Rejected? || deals.Rejected?
    ensures Load(prev, tasks, contacts, deals) == prev
    ensures Load(Initial(), tasks, contacts, deals).tasks == Grouped([], [], [])
    ensures Load(Initial(), tasks, contacts, deals).contacts == []
    ensures Load(Initial(), tasks, contacts, deals).deals == []
  {
  }

  /**
   * No partial update: after a successful load every part of the state comes
   * from the responses and none from the state before, so the result does
   * not depend on it.
   */
  lemma SuccessReplacesState(prev1: State, prev2: State, tasks: Settled<Task>, contacts: Settled<Contact>, deals: Settled<Deal>)
    requires tasks.Resolved? && contacts.Resolved? && deals.Resolved?
    ensures Load(prev1, tasks, contacts, deals) == Load(prev2, tasks, contacts, deals)
  {
  }

  /**
   * A successful load stores the contacts and the deals unchanged, in fetch
   * order, with a `null` body stored as the empty list; its buckets hold
   * exactly the fetched tasks.
   */
  lemma SuccessStoresResponses(prev: State, tasks: Settled<Task>, contacts: Settled<Contact>, deals: Settled<Deal>)
    requires tasks.Resolved? && contacts.Resolved? && deals.Resolved?
    ensures var next := Load(prev, tasks, contacts, deals);
      && (contacts.body.Some? ==> next.contacts == contacts.body.value)
      && (contacts.body.None? ==> next.contacts == [])
      && (deals.body.Some? ==> next.deals == deals.body.value)
      && (deals.body.None? ==> next.deals == [])
      && (tasks.body.None? ==> next.tasks == Grouped([], [], []))
      && (tasks.body.Some? ==> next.tasks.Contents() == multiset(tasks.body.value)
                                && next.tasks.Size() == |tasks.body.value|)
  {
    GroupPartition(OrEmpty(tasks.body));
  }
}
