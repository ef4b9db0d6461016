/**
 * Grouping of the fetched tasks into the three kanban buckets. The source
 * builds an object with exactly three own keys, walks the task list in
 * order and pushes each task onto the array its status names, or onto the
 * to-do array when its status names none of them.
 */
module Grouping {
  import opened Entities

  /** The three buckets of the kanban board. */
  datatype Bucket = Todo | InProgress | Done

  /** The key under which a bucket is stored in the grouping object. */
  function Key(b: Bucket): string
  {
    match b
    case Todo => "todo"
    case InProgress => "in_progress"
    case Done => "done"
  }

  /**
   * The bucket a task with the given status is pushed onto: the bucket whose
   * key is exactly the status when there is one, and the to-do bucket when
   * no key matches.
   */
  function BucketOf(status: string): (b: Bucket)
    ensures forall k: Bucket :: Key(k) == status ==> b == k
    ensures status !in {Key(Todo), Key(InProgress), Key(Done)} ==> b == Todo
  {
    if status == "in_progress" then InProgress
    else if status == "done" then Done
    else Todo
  }

  /**
   * The tasks of `ts` that belong in bucket `b`, in the order of `ts`; never
   * more tasks than were fetched.
   */
  function Filter(ts: seq<Task>, b: Bucket): (r: seq<Task>)
    ensures |r| <= |ts|
  {
    if ts == [] then []
    else
      var last := ts[|ts| - 1];
      Filter(ts[..|ts| - 1], b) + (if BucketOf(last.status) == b then [last] else [])
  }

  /** The three buckets as the grouping object holds them. */
  datatype Grouped = Grouped(todo: seq<Task>, inProgress: seq<Task>, done: seq<Task>)
  {
    /** The bucket stored under key `Key(b)`. */
    function Get(b: Bucket): seq<Task>
    {
      match b
      case Todo => todo
      case InProgress => inProgress
      case Done => done
    }

    /** The number of tasks held over all three buckets. */
    function Size(): nat
    {
      |todo| + |inProgress| + |done|
    }

    /** The tasks held over all three buckets, with multiplicity. */
    function Contents(): multiset<Task>
    {
      multiset(todo) + multiset(inProgress) + multiset(done)
    }
  }

  /** Three empty buckets: the value the grouping object and the page's task state start from. */
  const Empty: Grouped := Grouped([], [], [])

  /**
   * The specification of the grouping: each bucket is the filter of the input
   * by its rule, so a bucket holds only fetched tasks whose status selects it.
   */
  function Group(ts: seq<Task>): (r: Grouped)
    ensures forall b: Bucket, t: Task :: t in r.Get(b) ==> t in ts && BucketOf(t.status) == b
  {
    FilterMembers(ts, Todo);
    FilterMembers(ts, InProgress);
    FilterMembers(ts, Done);
    Grouped(Filter(ts, Todo), Filter(ts, InProgress), Filter(ts, Done))
  }

  /**
   * The grouping loop: start from three empty buckets and append each task,
   * in fetch order, to the bucket its status selects.
   */
  method GroupTasks(tasks: seq<Task>) returns (grouped: Grouped)
    ensures grouped == Group(tasks)
  {
    var todo, inProgress, done := Empty.todo, Empty.inProgress, Empty.done;
    for i := 0 to |tasks|
      invariant todo == Filter(tasks[..i], Todo)
      invariant inProgress == Filter(tasks[..i], InProgress)
      invariant done == Filter(tasks[..i], Done)
    {
      var t := tasks[i];
      assert tasks[..i + 1][..i] == tasks[..i];
      match BucketOf(t.status)
      case InProgress => inProgress := inProgress + [t];
      case Done => done := done + [t];
      case Todo => todo := todo + [t];
    }
    assert tasks[..|tasks|] == tasks;
    grouped := Grouped(todo, inProgress, done);
  }

  /**
   * How often a task occurs in a bucket: as often as in the input when its
   * status selects that bucket, and never otherwise.
   */
  lemma {:induction false} FilterCount(ts: seq<Task>, b: Bucket, t: Task)
    ensures multiset(Filter(ts, b))[t] == if BucketOf(t.status) == b then multiset(ts)[t] else 0
  {
    if ts != [] {
      var init, last := ts[..|ts| - 1], ts[|ts| - 1];
      assert ts == init + [last];
      FilterCount(init, b, t);
    }
  }

  /**
   * The grouping is a partition: the three buckets together hold every
   * fetched task exactly as often as it was fetched, and nothing else.
   */
  lemma {:induction false} GroupPartition(ts: seq<Task>)
    ensures Group(ts).Contents() == multiset(ts)
    ensures Group(ts).Size() == |ts|
  {
    if ts != [] {
      var init, last := ts[..|ts| - 1], ts[|ts| - 1];
      assert ts == init + [last];
      GroupPartition(init);
    }
  }

  /**
   * Every fetched task is in the bucket its status selects and in no other;
   * a task whose status is no bucket key is in the to-do bucket.
   */
  lemma ExactlyOneBucket(ts: seq<Task>, t: Task)
    requires t in ts
    ensures t in Group(ts).Get(BucketOf(t.status))
    ensures forall b: Bucket :: b != BucketOf(t.status) ==> t !in Group(ts).Get(b)
    ensures t.status !in {Key(Todo), Key(InProgress), Key(Done)} ==> t in Group(ts).todo
  {
    forall b: Bucket
      ensures t in Group(ts).Get(b) <==> BucketOf(t.status) == b
    {
      FilterCount(ts, b, t);
    }
  }

  /** Nothing enters a bucket that the bucket's rule does not admit. */
  lemma {:induction false} FilterMembers(ts: seq<Task>, b: Bucket)
    ensures forall t :: t in Filter(ts, b) ==> t in ts && BucketOf(t.status) == b
  {
    if ts != [] {
      var init, last := ts[..|ts| - 1], ts[|ts| - 1];
      assert ts == init + [last];
      FilterMembers(init, b);
    }
  }

  /**
   * The grouping works task by task: grouping a list fetched as `front`
   * followed by `back` appends the buckets of `back` after those of `front`.
   */
  lemma {:induction false} FilterConcat(front: seq<Task>, back: seq<Task>, b: Bucket)
    ensures Filter(front + back, b) == Filter(front, b) + Filter(back, b)
  {
    if back == [] {
      assert front + back == front;
    } else {
      var init, last := back[..|back| - 1], back[|back| - 1];
      var whole := front + back;
      var step := if BucketOf(last.status) == b then [last] else [];
      assert whole[..|whole| - 1] == front + init && whole[|whole| - 1] == last;
      assert Filter(whole, b) == Filter(front + init, b) + step;
      assert Filter(back, b) == Filter(init, b) + step;
      FilterConcat(front, init, b);
      assert Filter(front + init, b) + step == Filter(front, b) + (Filter(init, b) + step);
    }
  }

  /** `sub` is obtained from `s` by deleting elements, keeping the order of the rest. */
  ghost predicate IsSubsequence(sub: seq<Task>, s: seq<Task>)
    decreases |s|
  {
    if sub == [] then true
    else if s == [] then false
    else if sub[|sub| - 1] == s[|s| - 1] && IsSubsequence(sub[..|sub| - 1], s[..|s| - 1]) then true
    else IsSubsequence(sub, s[..|s| - 1])
  }

  /** Each bucket keeps the fetch order: it is a subsequence of the fetched list. */
  lemma {:induction false} FilterIsSubsequence(ts: seq<Task>, b: Bucket)
    ensures IsSubsequence(Filter(ts, b), ts)
  {
    if ts != [] {
      var init, last := ts[..|ts| - 1], ts[|ts| - 1];
      FilterIsSubsequence(init, b);
      if BucketOf(last.status) == b {
        var f := Filter(ts, b);
        assert f[..|f| - 1] == Filter(init, b);
      } else {
        assert Filter(ts, b) == Filter(init, b);
        SubsequenceOfLonger(Filter(init, b), init, last);
        assert init + [last] == ts;
      }
    }
  }

  /** A subsequence of `s` stays one when an element is appended to `s`. */
  lemma {:induction false} SubsequenceOfLonger(sub: seq<Task>, s: seq<Task>, x: Task)
    requires IsSubsequence(sub, s)
    ensures IsSubsequence(sub, s + [x])
  {
  }

  /**
   * An example: statuses "todo", "done", "blocked" give the to-do
   * bucket the first and third task and the done bucket the second.
   */
  lemma GroupExample(t1: Task, t2: Task, t3: Task)
    requires t1.status == "todo" && t2.status == "done" && t3.status == "blocked"
    ensures Group([t1, t2, t3]) == Grouped([t1, t3], [], [t2])
  {
    assert BucketOf(t1.status) == Todo && BucketOf(t2.status) == Done && BucketOf(t3.status) == Todo;
    assert [t1, t2, t3][..2] == [t1, t2];
    assert [t1, t2][..1] == [t1];
    assert [t1][..0] == [];
    assert Filter([t1], Todo) == Filter([], Todo) + [t1];
    assert Filter([t1], InProgress) == Filter([], InProgress);
    assert Filter([t1], Done) == Filter([], Done);
    assert Group([t1]) == Grouped([t1], [], []);
    assert Group([t1, t2]) == Grouped([t1], [], [t2]);
  }
}
