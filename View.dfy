/**
 * What the page derives from its state for display: the four stat cards and
 * the contact and deal lists cut to their first six entries.
 */
module View {
  import opened Entities
  import opened Grouping
  import opened Fetch

  /** How many contacts and deals the side lists show. */
  const DisplayLimit: nat := 6

  /**
   * `slice(0, n)` on a list: the first `n` entries, or the whole list when it
   * is shorter.
   */
  function Take<T>(s: seq<T>, n: nat): (r: seq<T>)
    ensures |r| == if |s| <= n then |s| else n
    ensures r == s[..|r|]
  {
    if |s| <= n then s else s[..n]
  }

  /**
   * The entries a side list shows: a prefix of the stored list with
   * min(length, 6) entries, which is the whole list when it has at most six.
   */
  function Displayed<T>(s: seq<T>): (r: seq<T>)
    ensures |s| <= DisplayLimit ==> r == s
    ensures |s| > DisplayLimit ==> |r| == DisplayLimit && r == s[..DisplayLimit]
  {
    Take(s, DisplayLimit)
  }

  /** The four stat cards. */
  datatype Stats = Stats(open: nat, completed: nat, contacts: nat, deals: nat)

  /**
   * The stat cards of a state: open is to-do plus in progress, completed is
   * done, so the two together count every grouped task; the contact and deal
   * cards count the whole stored lists.
   */
  function StatsOf(s: State): (r: Stats)
    ensures r.open + r.completed == s.tasks.Size()
    ensures r.completed == |s.tasks.Get(Done)|
    ensures r.contacts == |s.contacts| && r.deals == |s.deals|
  {
    Stats(|s.tasks.todo| + |s.tasks.inProgress|, |s.tasks.done|, |s.contacts|, |s.deals|)
  }

  /** How many tasks of `ts` have exactly the status `status`. */
  function CountStatus(ts: seq<Task>, status: string): nat
  {
    if ts == [] then 0
    else CountStatus(ts[..|ts| - 1], status) + (if ts[|ts| - 1].status == status then 1 else 0)
  }

  /** The done bucket holds exactly the tasks whose status is "done". */
  lemma {:induction false} DoneCount(ts: seq<Task>)
    ensures |Filter(ts, Done)| == CountStatus(ts, Key(Done))
  {
    if ts != [] {
      DoneCount(ts[..|ts| - 1]);
    }
  }

  /**
   * After a successful load, "Completed" counts the fetched tasks whose status
   * is "done", "Open Tasks" counts all the others, the two add up to the
   * number of fetched tasks, and the contact and deal cards count the whole
   * stored lists, not only the entries displayed.
   */
  lemma {:induction false} StatsAfterLoad(prev: State, tasks: Settled<Task>, contacts: Settled<Contact>, deals: Settled<Deal>)
    requires tasks.Resolved? && contacts.Resolved? && deals.Resolved?
    ensures var st := StatsOf(Load(prev, tasks, contacts, deals));
      var ts := OrEmpty(tasks.body);
      && st.completed == CountStatus(ts, "done")
      && st.open == |ts| - CountStatus(ts, "done")
      && st.open + st.completed == |ts|
      && st.contacts == |OrEmpty(contacts.body)|
      && st.deals == |OrEmpty(deals.body)|
  {
    var ts := OrEmpty(tasks.body);
    GroupPartition(ts);
    DoneCount(ts);
  }

  /** Before any successful load, or after a failed one, every stat card shows zero. */
  lemma StatsOnFailure(tasks: Settled<Task>, contacts: Settled<Contact>, deals: Settled<Deal>)
    requires tasks.Rejected? || contacts.Rejected? || deals.Rejected?
    ensures StatsOf(Load(Initial(), tasks, contacts, deals)) == Stats(0, 0, 0, 0)
  {
  }

  /** Eight stored contacts display as the first six. */
  lemma DisplayedEightContacts(cs: seq<Contact>)
    requires |cs| == 8
    ensures Displayed(cs) == cs[..6] && |Displayed(cs)| == 6
  {
  }
}
