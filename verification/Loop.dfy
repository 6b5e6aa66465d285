/**
 The event loop as a step scheduler: posted tasks run one at a time in the order posted, and timers
 run at most once. A task is known by its number and by the tasks it posts when it runs.
 */
module Loop {
  import opened Codec

  datatype Task = Task(id: nat, posts: seq<Task>)

  function Ids(tasks: seq<Task>): (ids: seq<nat>)
    ensures |ids| == |tasks|
  {
    seq(|tasks|, i requires 0 <= i < |tasks| => tasks[i].id)
  }

  /** Everything a list of tasks posts, in order. */
  function PostsOf(tasks: seq<Task>): seq<Task> {
    if tasks == [] then [] else PostsOf(tasks[..|tasks| - 1]) + tasks[|tasks| - 1].posts
  }

  lemma OneMore(tasks: seq<Task>, i: nat)
    requires i < |tasks|
    ensures Ids(tasks[..i + 1]) == Ids(tasks[..i]) + [tasks[i].id]
    ensures PostsOf(tasks[..i + 1]) == PostsOf(tasks[..i]) + tasks[i].posts
  {
    assert tasks[..i + 1][..i] == tasks[..i];
  }

  lemma StartOfDrain()
    ensures Ids([]) == [] && PostsOf([]) == []
  {
  }

  class LoopRunner {
    var running: bool
    var pending: seq<Task>
    var timers: map<nat, Task>
    var nextTimerId: nat
    ghost var posted: seq<nat>      // every task posted so far
    ghost var ran: seq<nat>         // posted tasks that ran
    ghost var ready: seq<Task>      // picked up by the drain in progress, not run yet
    ghost var fired: seq<nat>       // timers whose task ran

    constructor ()
      ensures Valid() && running && ready == [] && posted == [] && fired == []
    {
      running, pending, timers, nextTimerId := true, [], map[], 1;
      posted, ran, ready, fired := [], [], [], [];
    }

    /** Tasks run in post order, none lost or repeated; a timer that ran is not armed. */
    ghost predicate Valid()
      reads this
    {
      && posted == ran + Ids(ready) + Ids(pending)
      && 1 <= nextTimerId
      && (forall id :: id in timers ==> 1 <= id < nextTimerId && id !in fired)
      && (forall i :: 0 <= i < |fired| ==> fired[i] < nextTimerId)
      && (forall i, j :: 0 <= i < j < |fired| ==> fired[i] != fired[j])
    }

    method Post(task: Task)
      requires Valid()
      modifies this`pending, this`posted
      ensures Valid() && pending == old(pending) + [task] && posted == old(posted) + [task.id]
    {
      assert Ids(pending + [task]) == Ids(pending) + [task.id];
      pending := pending + [task];
      posted := posted + [task.id];
    }

    /** Runs what was posted before the drain began; what those tasks post waits for the next one. */
    method DrainPending()
      requires Valid() && ready == []
      modifies this
      ensures Valid() && ready == []
      ensures ran == old(ran) + Ids(old(pending))
      ensures pending == PostsOf(old(pending))
      ensures unchanged(`timers) && unchanged(`fired) && unchanged(`nextTimerId)
    {
      hide LoopRunner.Valid, Ids, PostsOf;
      var tasks := pending;
      PickUp();
      StartOfDrain();
      for i := 0 to |tasks|
        invariant Valid() && ready == tasks[i..]
        invariant ran == old(ran) + Ids(tasks[..i])
        invariant pending == PostsOf(tasks[..i])
        invariant unchanged(`timers) && unchanged(`fired) && unchanged(`nextTimerId)
      {
        RunTask(tasks[i]);
        OneMore(tasks, i);
        Assoc(old(ran), Ids(tasks[..i]), [tasks[i].id]);
      }
      assert tasks[..|tasks|] == tasks;
    }

    method PickUp()
      requires Valid() && ready == []
      modifies this`pending, this`ready
      ensures Valid() && pending == [] && ready == old(pending)
    {
      ready := pending;
      pending := [];
    }

    method RunTask(task: Task)
      requires Valid() && ready != [] && ready[0] == task
      modifies this
      ensures Valid() && ready == old(ready)[1..]
      ensures ran == old(ran) + [task.id] && pending == old(pending) + task.posts
      ensures unchanged(`timers) && unchanged(`fired) && unchanged(`nextTimerId)
    {
      assert Ids(ready) == [task.id] + Ids(ready[1..]);
      ran := ran + [task.id];
      ready := ready[1..];
      for k := 0 to |task.posts|
        invariant Valid() && ready == old(ready)[1..] && ran == old(ran) + [task.id]
        invariant pending == old(pending) + task.posts[..k]
        invariant unchanged(`timers) && unchanged(`fired) && unchanged(`nextTimerId)
      {
        Post(task.posts[k]);
      }
    }

    method SetTimer(task: Task) returns (id: nat)
      requires Valid()
      modifies this`timers, this`nextTimerId
      ensures Valid()
      ensures id == 0 <==> !running
      ensures running ==> id !in old(timers) && id !in fired && timers == old(timers)[id := task]
      ensures !running ==> timers == old(timers)
    {
      if !running { return 0; }
      id := nextTimerId;
      nextTimerId := nextTimerId + 1;
      timers := timers[id := task];
    }

    method CancelTimer(id: nat)
      requires Valid()
      modifies this`timers
      ensures Valid() && timers == old(timers) - {id}
    {
      if id !in timers { return; }
      timers := timers - {id};
    }

    /** The timer is disarmed before its task runs, so the task can neither cancel nor repeat itself. */
    method OnTimer(id: nat)
      requires Valid() && id in timers
      modifies this
      ensures Valid() && timers == old(timers) - {id} && fired == old(fired) + [id]
      ensures pending == old(pending) + old(timers[id]).posts
    {
      var task := timers[id];
      CancelTimer(id);
      fired := fired + [id];
      for k := 0 to |task.posts|
        invariant Valid() && timers == old(timers) - {id} && fired == old(fired) + [id]
        invariant pending == old(pending) + task.posts[..k]
      {
        Post(task.posts[k]);
      }
    }
  }
}
