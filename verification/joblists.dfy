/**
 The two linked lists between the main thread and the decoder, edited in place. Every
 operation is proved to do to the chain of nodes what Images says of the sequence of jobs.
 */
module JobLists {
  import opened Images
  import opened Options

  class Node {
    const job: Job
    var next: Node?

    constructor (job: Job)
      ensures this.job == job && next == null
    {
      this.job := job;
      next := null;
    }
  }

  function JobsOf(nodes: seq<Node>): (jobs: seq<Job>)
    ensures |jobs| == |nodes|
  {
    seq(|nodes|, k requires 0 <= k < |nodes| => nodes[k].job)
  }

  function Head(nodes: seq<Node>): Node? {
    if nodes == [] then null else nodes[0]
  }

  function After(nodes: seq<Node>, k: nat): Node? {
    if k + 1 < |nodes| then nodes[k + 1] else null
  }

  /** The pointers lead through these nodes and end. */
  ghost predicate Chain(nodes: seq<Node>)
    reads nodes
  {
    forall k :: 0 <= k < |nodes| ==> nodes[k].next == After(nodes, k)
  }

  predicate Distinct(nodes: seq<Node>) {
    forall a, b :: 0 <= a < b < |nodes| ==> nodes[a] != nodes[b]
  }

  lemma {:induction false} DistinctCounts(nodes: seq<Node>)
    requires forall n :: n in nodes ==> multiset(nodes)[n] == 1
    ensures Distinct(nodes)
  {
    forall a, b | 0 <= a < b < |nodes| ensures nodes[a] != nodes[b] {
      assert nodes == nodes[..b] + nodes[b..];
      assert nodes[a] in nodes[..b] && nodes[b] in nodes[b..];
      assert multiset(nodes)[nodes[a]] == multiset(nodes[..b])[nodes[a]] + multiset(nodes[b..])[nodes[a]];
    }
  }

  lemma {:induction false} CountsDistinct(nodes: seq<Node>)
    requires Distinct(nodes)
    ensures forall n :: n in nodes ==> multiset(nodes)[n] == 1
  {
    if nodes != [] {
      var last := |nodes| - 1;
      CountsDistinct(nodes[..last]);
      assert nodes == nodes[..last] + [nodes[last]];
      assert nodes[last] !in nodes[..last];
    }
  }

  /** Distinct nodes stay so in any other order. */
  lemma Reordered(nodes: seq<Node>, others: seq<Node>)
    requires Distinct(nodes) && multiset(others) == multiset(nodes)
    ensures Distinct(others)
  {
    CountsDistinct(nodes);
    forall n | n in others ensures multiset(others)[n] == 1 {
      assert n in multiset(nodes);
    }
    DistinctCounts(others);
  }

  /** In a chain of distinct nodes the node taken out and the one before it are in no other place. */
  lemma Elsewhere(kept: seq<Node>, batch: seq<Node>, node: Node, rest: seq<Node>, done: seq<Node>)
    requires Distinct(kept + ([node] + batch) + rest + done)
    ensures node !in kept && node !in batch && node !in rest && node !in done
    ensures kept != [] ==> var before := kept[|kept| - 1];
              && (forall k :: 0 <= k < |kept| - 1 ==> kept[k] != before)
              && before !in batch && before !in rest && before !in done && before != node
  {
    var all := kept + ([node] + batch) + rest + done;
    var at := |kept|;
    assert all[at] == node;
    assert forall k :: 0 <= k < |kept| ==> all[k] == kept[k];
    assert forall k :: 0 <= k < |batch| ==> all[at + 1 + k] == batch[k];
    assert forall k :: 0 <= k < |rest| ==> all[at + 1 + |batch| + k] == rest[k];
    assert forall k :: 0 <= k < |done| ==> all[at + 1 + |batch| + |rest| + k] == done[k];
  }

  lemma Follows(nodes: seq<Node>, k: nat)
    requires Chain(nodes) && k < |nodes|
    ensures nodes[k].next == After(nodes, k)
  {
  }

  lemma ChainPrepend(node: Node, nodes: seq<Node>)
    requires node.next == Head(nodes) && Chain(nodes)
    ensures Chain([node] + nodes)
  {
    var more := [node] + nodes;
    forall k | 0 <= k < |more| ensures more[k].next == After(more, k) {
      if k > 0 { Follows(nodes, k - 1); }
    }
  }

  /** From each node but the last to the next. */
  ghost predicate Linked(nodes: seq<Node>)
    reads nodes
  {
    forall k :: 0 <= k < |nodes| - 1 ==> nodes[k].next == nodes[k + 1]
  }

  lemma ChainSplit(kept: seq<Node>, node: Node, rest: seq<Node>)
    requires Chain(kept + [node] + rest)
    ensures Linked(kept) && node.next == Head(rest) && Chain(rest)
  {
    var chain := kept + [node] + rest;
    forall k | 0 <= k < |kept| - 1 ensures kept[k].next == kept[k + 1] { Follows(chain, k); }
    Follows(chain, |kept|);
    forall k | 0 <= k < |rest| ensures rest[k].next == After(rest, k) { Follows(chain, |kept| + 1 + k); }
  }

  lemma ChainJoin(kept: seq<Node>, rest: seq<Node>)
    requires Linked(kept) && (kept != [] ==> kept[|kept| - 1].next == Head(rest)) && Chain(rest)
    ensures Chain(kept + rest)
  {
    var chain := kept + rest;
    forall k | 0 <= k < |chain| ensures chain[k].next == After(chain, k) {
      if k >= |kept| { Follows(rest, k - |kept|); }
    }
  }

  lemma NewFirst(node: Node, nodes: seq<Node>, done: seq<Node>)
    requires node !in nodes && node !in done && Distinct(nodes + done)
    ensures Distinct([node] + nodes + done)
    ensures ([node] + nodes)[1..] == nodes
  {
    var all, less := [node] + nodes + done, nodes + done;
    forall a, b | 0 <= a < b < |all| ensures all[a] != all[b] {
      assert all[b] == less[b - 1];
      if a > 0 { assert all[a] == less[a - 1]; }
    }
  }

  lemma Cursor(start: seq<Node>, kept: seq<Node>, i: nat)
    requires i <= |start|
    ensures i == |start| ==> Head(start[i..]) == null && start[i..] == []
    ensures i < |start| ==> var all := kept + start[i..];
              Head(start[i..]) == start[i] == all[|kept|] && After(all, |kept|) == Head(start[i + 1..])
  {
  }

  lemma NoNodes()
    ensures Chain([])
  {
  }

  lemma WithoutMiddle(first: seq<Node>, middle: seq<Node>, last: seq<Node>)
    requires Distinct(first + middle + last)
    ensures Distinct(first + last)
  {
    var all, less := first + middle + last, first + last;
    assert forall k :: 0 <= k < |less| ==> less[k] == all[if k < |first| then k else k + |middle|];
  }

  lemma SameLength(nodes: seq<Node>)
    ensures |JobsOf(nodes)| == |nodes| && (Head(nodes) == null <==> nodes == [])
  {
  }

  lemma FirstJob(nodes: seq<Node>)
    ensures nodes != [] ==> JobsOf(nodes)[0] == nodes[0].job && JobsOf(nodes)[1..] == JobsOf(nodes[1..])
  {
  }

  lemma JoinJobs(nodes: seq<Node>, others: seq<Node>)
    ensures JobsOf(nodes + others) == JobsOf(nodes) + JobsOf(others)
    ensures nodes == [] ==> JobsOf(nodes) == []
  {
  }

  lemma NoJobs(path: string)
    ensures JobsOf([]) == Others(JobsOf([]), path) == Matching(JobsOf([]), path) == []
  {
  }

  lemma AppendJob(nodes: seq<Node>, node: Node)
    ensures JobsOf(nodes + [node]) == JobsOf(nodes) + [node.job]
  {
  }

  lemma PrependJob(node: Node, nodes: seq<Node>)
    ensures JobsOf([node] + nodes) == [node.job] + JobsOf(nodes)
  {
  }

  lemma OneMoreJob(nodes: seq<Node>, node: Node, path: string)
    ensures var before, after := JobsOf(nodes), JobsOf(nodes + [node]);
            if node.job.path == path
            then Matching(after, path) == [node.job] + Matching(before, path)
                   && Others(after, path) == Others(before, path)
            else Matching(after, path) == Matching(before, path)
                   && Others(after, path) == Others(before, path) + [node.job]
  {
    var before, after := JobsOf(nodes), JobsOf(nodes + [node]);
    assert after == before + [node.job];
    assert after[..|after| - 1] == before;
  }

  lemma Ends(waiting: seq<Node>, nodes: seq<Node>, done: seq<Node>)
    requires Distinct(waiting + nodes + done) && nodes != []
    ensures var last := nodes[|nodes| - 1]; last !in waiting && last !in nodes[..|nodes| - 1] && last !in done
    ensures Distinct(waiting + (nodes + done))
  {
    var all := waiting + nodes + done;
    assert all == waiting + (nodes + done);
    assert forall k :: 0 <= k < |waiting| ==> all[k] == waiting[k];
    assert forall k :: 0 <= k < |nodes| ==> all[|waiting| + k] == nodes[k];
    assert forall k :: 0 <= k < |done| ==> all[|waiting| + |nodes| + k] == done[k];
  }

  /** The first `i` nodes of the list are sorted into kept and taken ones. */
  ghost predicate Split(start: seq<Node>, kept: seq<Node>, batch: seq<Node>, done: seq<Node>, i: nat, path: string) {
    && i <= |start|
    && Distinct(kept + batch + start[i..] + done)
    && multiset(kept + batch) == multiset(start[..i])
    && JobsOf(kept) == Others(JobsOf(start[..i]), path)
    && JobsOf(batch) == Matching(JobsOf(start[..i]), path)
  }

  lemma SplitStart(start: seq<Node>, done: seq<Node>, path: string)
    requires Distinct(start + done)
    ensures Split(start, [], [], done, 0, path)
  {
    hide Distinct;
    assert start[..0] == [] && [] + [] + start[0..] + done == start + done;
    NoJobs(path);
  }

  lemma MovesOver(kept: seq<Node>, batch: seq<Node>, node: Node, rest: seq<Node>, done: seq<Node>)
    ensures multiset(kept + [node] + batch + rest + done) == multiset(kept + batch + ([node] + rest) + done)
    ensures multiset(kept + [node] + batch) == multiset(kept + batch) + multiset{node}
  {
  }

  lemma SplitKeep(start: seq<Node>, kept: seq<Node>, batch: seq<Node>, done: seq<Node>, i: nat, path: string)
    requires Split(start, kept, batch, done, i, path) && i < |start| && start[i].job.path != path
    ensures Split(start, kept + [start[i]], batch, done, i + 1, path)
    ensures kept + start[i..] == kept + [start[i]] + start[i + 1..]
  {
    hide Distinct, JobsOf, Others, Matching;
    assert start[i..] == [start[i]] + start[i + 1..];
    assert start[..i + 1] == start[..i] + [start[i]];
    OneMoreJob(start[..i], start[i], path);
    MovesOver(kept, batch, start[i], start[i + 1..], done);
    Reordered(kept + batch + start[i..] + done, kept + [start[i]] + batch + start[i + 1..] + done);
    AppendJob(kept, start[i]);
  }

  lemma SplitTake(start: seq<Node>, kept: seq<Node>, batch: seq<Node>, done: seq<Node>, i: nat, path: string)
    requires Split(start, kept, batch, done, i, path) && i < |start| && start[i].job.path == path
    ensures Split(start, kept, [start[i]] + batch, done, i + 1, path)
    ensures Distinct(kept + ([start[i]] + batch) + start[i + 1..] + done)
    ensures kept + start[i..] == kept + [start[i]] + start[i + 1..]
  {
    hide Distinct, JobsOf, Others, Matching;
    assert start[i..] == [start[i]] + start[i + 1..];
    assert start[..i + 1] == start[..i] + [start[i]];
    OneMoreJob(start[..i], start[i], path);
    Reordered(kept + batch + start[i..] + done, kept + ([start[i]] + batch) + start[i + 1..] + done);
    PrependJob(start[i], batch);
  }

  lemma SplitEnd(start: seq<Node>, kept: seq<Node>, batch: seq<Node>, done: seq<Node>, path: string)
    requires Split(start, kept, batch, done, |start|, path)
    ensures Distinct(kept + batch + done) && Distinct(kept + done)
    ensures multiset(kept + batch) == multiset(start)
    ensures JobsOf(kept) == Others(JobsOf(start), path) && JobsOf(batch) == Matching(JobsOf(start), path)
  {
    hide Distinct, JobsOf, Others, Matching;
    assert start[|start|..] == [] && start[..|start|] == start;
    assert kept + batch + start[|start|..] + done == kept + batch + done;
    WithoutMiddle(kept, batch, done);
  }

  class Lists {
    var requested: Node?
    var decoded: Node?
    ghost var waiting: seq<Node>
    ghost var done: seq<Node>

    ghost predicate Valid()
      reads this, waiting, done
    {
      && requested == Head(waiting) && Chain(waiting)
      && decoded == Head(done) && Chain(done)
      && Distinct(waiting + done)
    }

    constructor ()
      ensures Valid() && waiting == done == []
    {
      requested, decoded, waiting, done := null, null, [], [];
    }

    method Request(job: Job)
      requires Valid()
      modifies this`requested, this`waiting
      ensures Valid() && done == old(done)
      ensures |waiting| == |old(waiting)| + 1 && fresh(waiting[0]) && waiting[1..] == old(waiting)
      ensures JobsOf(waiting) == [job] + JobsOf(old(waiting))
    {
      hide Distinct, JobsOf, Chain;
      ghost var former := waiting;
      var node := new Node(job);
      node.next := requested;
      requested := node;
      waiting := [node] + former;
      ChainPrepend(node, former);
      NewFirst(node, former, done);
      PrependJob(node, former);
    }

    /** Takes the node after `before` out of the list and puts it in front of the taken ones. */
    method Unlink(before: Node?, node: Node, taken: Node?, ghost kept: seq<Node>, ghost batch: seq<Node>,
          ghost rest: seq<Node>)
      requires requested == Head(kept + [node] + rest) && Chain(kept + [node] + rest)
      requires taken == Head(batch) && Chain(batch) && Chain(done)
      requires before == if kept == [] then null else kept[|kept| - 1]
      requires Distinct(kept + ([node] + batch) + rest + done)
      modifies this`requested, before, node
      ensures requested == Head(kept + rest) && Chain(kept + rest)
      ensures Chain([node] + batch) && Chain(done)
    {
      hide Distinct, Chain;
      Elsewhere(kept, batch, node, rest, done);
      ChainSplit(kept, node, rest);
      if before == null { requested := node.next; } else { before.next := node.next; }
      node.next := taken;
      ChainJoin(kept, rest);
      ChainPrepend(node, batch);
    }

    /** Unlinks the jobs of one file, the last of them in front. */
    method TakePath(path: string) returns (taken: Node?, ghost batch: seq<Node>)
      requires Valid()
      modifies this`requested, this`waiting, waiting
      ensures Valid() && done == old(done)
      ensures taken == Head(batch) && Chain(batch) && Distinct(waiting + batch + done)
      ensures multiset(waiting + batch) == multiset(old(waiting))
      ensures JobsOf(waiting) == Others(JobsOf(old(waiting)), path)
      ensures JobsOf(batch) == Matching(JobsOf(old(waiting)), path)
    {
      hide Distinct, JobsOf, Others, Matching, Chain, Split, After;
      taken, batch := null, [];
      var before: Node? := null;
      var node := requested;
      ghost var start: seq<Node>, kept: seq<Node>, i := waiting, [], 0;
      SplitStart(start, done, path);
      NoNodes();
      Cursor(start, kept, 0);
      while node != null
        modifies this`requested, this`waiting, start
        invariant i <= |start| && done == old(done) && Split(start, kept, batch, done, i, path)
        invariant waiting == kept + start[i..] && requested == Head(waiting) && Chain(waiting)
        invariant taken == Head(batch) && Chain(batch)
        invariant decoded == Head(done) && Chain(done)
        invariant before == (if kept == [] then null else kept[|kept| - 1]) && (before != null ==> before in start)
        invariant node == Head(start[i..])
        decreases |start| - i
      {
        var after := node.next;
        Cursor(start, kept, i);
        Follows(waiting, |kept|);
        if node.job.path != path {
          SplitKeep(start, kept, batch, done, i, path);
          kept := kept + [start[i]];
          before := node;
        } else {
          SplitTake(start, kept, batch, done, i, path);
          Unlink(before, node, taken, kept, batch, start[i + 1..]);
          taken := node;
          batch := [start[i]] + batch;
          waiting := kept + start[i + 1..];
        }
        node := after;
        i := i + 1;
      }
      Cursor(start, kept, i);
      SplitEnd(start, kept, batch, done, path);
      assert waiting == kept;
    }

    /** The decoder hands its batch back in front of what is decoded. */
    method GiveBack(batch: Node, ghost nodes: seq<Node>)
      requires Valid() && nodes != [] && batch == nodes[0] && Chain(nodes) && Distinct(waiting + nodes + done)
      modifies this`decoded, this`done, nodes
      ensures Valid() && waiting == old(waiting) && done == nodes + old(done)
    {
      var last := batch;
      ghost var i := 0;
      while last.next != null
        modifies {}
        invariant 0 <= i < |nodes| && last == nodes[i]
        decreases |nodes| - i
      {
        assert nodes[i].next == After(nodes, i);
        last := last.next;
        i := i + 1;
      }
      Ends(waiting, nodes, done);
      last.next := decoded;
      decoded := batch;
      done := nodes + done;
    }

    /** The main thread takes the next decoded job. */
    method Deliver() returns (job: Option<Job>)
      requires Valid()
      modifies this`decoded, this`done
      ensures Valid() && waiting == old(waiting)
      ensures if old(done) == [] then job == None && done == []
              else job == Some(old(done)[0].job) && done == old(done)[1..]
    {
      if decoded == null { return None; }
      job := Some(decoded.job);
      assert waiting + done == waiting + [done[0]] + done[1..];
      WithoutMiddle(waiting, [done[0]], done[1..]);
      decoded := decoded.next;
      done := done[1..];
    }
  }
}
