// The sample pipeline framework (samples/easy_pipeline/framework/
// easy_pipeline.cpp): building the graph of source and module nodes,
// routing frames to a node's input queues by stream, and the per-node
// record of which streams are still running.
module EasyPipeline {
  import opened Common

  /** The fields of EdkFrame the framework looks at. `tag` only tells
      frames apart. */
  datatype Frame = Frame(streamId: nat, isEos: bool, tag: nat)

  /** A NodeContext: the module's name and parallelism, the node it sends
      to (an index into the module list; None is a null `next`), one input
      queue per parallel worker, and stream_process_map. */
  datatype Node = Node(name: string, parallelism: int, next: Option<nat>, queues: seq<seq<Frame>>, streams: map<int, bool>)

  /** A node refers to a source (an index into `sources`) or a module (an
      index into `nodes`). */
  datatype NodeRef = SourceRef(i: nat) | ModuleRef(i: nat)

  /** The exception a call can end in instead of returning. */
  datatype PipelineError = LengthError

  /** FindNodeByName over `nodes[from..]`: the first node with the name, or
      None. */
  function FindFrom(nodes: seq<Node>, name: string, from: nat): (r: Option<nat>)
    requires from <= |nodes|
    ensures r.Some? ==> from <= r.value < |nodes| && nodes[r.value].name == name
    ensures r.Some? ==> forall j :: from <= j < r.value ==> nodes[j].name != name
    ensures r.None? ==> forall j :: from <= j < |nodes| ==> nodes[j].name != name
    decreases |nodes| - from
  {
    if from == |nodes| then None
    else if nodes[from].name == name then Some(from)
    else FindFrom(nodes, name, from + 1)
  }

  /** FindNodeByName: the first module node with the name (sources are not
      searched), or None when there is none. */
  function FindByName(nodes: seq<Node>, name: string): (r: Option<nat>)
    ensures r.Some? ==> r.value < |nodes| && nodes[r.value].name == name
    ensures r.Some? ==> forall j :: 0 <= j < r.value ==> nodes[j].name != name
    ensures r.None? <==> forall j :: 0 <= j < |nodes| ==> nodes[j].name != name
  {
    FindFrom(nodes, name, 0)
  }

  /** Some source has the name. */
  predicate HasSource(sources: seq<Node>, name: string)
  {
    exists i :: 0 <= i < |sources| && sources[i].name == name
  }

  /** The sources after AddLink(current, ...) pointed every source named
      `current` at `target`. */
  function LinkSources(sources: seq<Node>, current: string, target: Option<nat>): (r: seq<Node>)
    ensures |r| == |sources|
    ensures forall i :: 0 <= i < |sources| ==>
      r[i] == if sources[i].name == current then sources[i].(next := target) else sources[i]
  {
    seq(|sources|, i requires 0 <= i < |sources| => if sources[i].name == current then sources[i].(next := target) else sources[i])
  }

  /** The number of input queues a module of the given parallelism has:
      the creation loop runs `parallelism` times. Sources have none, and
      AddModule refuses a negative parallelism. */
  function QueueCount(parallelism: int): nat
  {
    if parallelism > 0 then parallelism else 0
  }

  function EmptyQueues(n: nat): (r: seq<seq<Frame>>)
    ensures |r| == n && forall q :: 0 <= q < n ==> r[q] == []
  {
    seq(n, _ => [])
  }

  /** The input queue a frame of the stream goes to: stream_id %
      parallelism. Two frames of one stream always meet in the same queue,
      so a node sees each stream's frames in the order they were sent. */
  function QueueOf(streamId: nat, parallelism: nat): (q: nat)
    requires parallelism > 0
    ensures q < parallelism
  {
    streamId % parallelism
  }

  /** Stream ids that differ by a multiple of the parallelism share a
      queue, and only those: the routing splits the streams evenly over
      the workers. */
  lemma {:induction false} SameQueue(s: nat, k: nat, p: nat)
    requires p > 0
    ensures QueueOf(s + k * p, p) == QueueOf(s, p)
    decreases k
  {
    if k > 0 {
      SameQueue(s, k - 1, p);
      var x := s + (k - 1) * p;
      assert s + k * p == x + p;
      var d, m := x / p, x % p;
      assert x == d * p + m && 0 <= m < p;
      assert x + p == (d + 1) * p + m;
      DivModUnique(x + p, p, d + 1, m);
    }
  }

  lemma DivModUnique(x: nat, p: nat, d: int, m: int)
    requires p > 0 && x == d * p + m && 0 <= m < p
    ensures x % p == m
  {
    var d0, m0 := x / p, x % p;
    assert x == d0 * p + m0 && 0 <= m0 < p;
    var e := d - d0;
    assert e * p == m0 - m by {
      assert d * p - d0 * p == (d - d0) * p;
    }
    if e > 0 {
      PositiveMultiple(e, p);
    } else if e < 0 {
      PositiveMultiple(-e, p);
    }
  }

  lemma PositiveMultiple(e: int, p: nat)
    requires e >= 1
    ensures e * p >= p
  {
    assert e * p == p + (e - 1) * p;
  }

  /** Every frame waiting in a module's queues sits in the queue of its
      stream. */
  predicate Routed(n: Node)
  {
    n.parallelism > 0 ==>
      forall q, j :: 0 <= q < |n.queues| && 0 <= j < |n.queues[q]| ==>
        QueueOf(n.queues[q][j].streamId, n.parallelism) == q
  }

  /** ProcessFrameEos on a node's stream_process_map: an EOS frame marks a
      known stream finished (an unknown one is ignored); any other frame
      adds an unknown stream as running and leaves a known one alone. */
  function EosUpdate(m: map<int, bool>, f: Frame): (r: map<int, bool>)
    ensures f.isEos ==> r.Keys == m.Keys && (f.streamId in m ==> !r[f.streamId])
    ensures !f.isEos ==> r.Keys == m.Keys + {f.streamId} && (f.streamId !in m ==> r[f.streamId])
    ensures forall s :: s in m && s != f.streamId ==> r[s] == m[s]
    ensures !f.isEos ==> forall s :: s in m ==> r[s] == m[s]
  {
    if f.isEos then
      if f.streamId in m then m[f.streamId := false] else m
    else
      if f.streamId !in m then m[f.streamId := true] else m
  }

  /** Applying the same frame twice changes nothing more. */
  lemma EosUpdateIdempotent(m: map<int, bool>, f: Frame)
    ensures EosUpdate(EosUpdate(m, f), f) == EosUpdate(m, f)
  {
  }

  /** The map after a node has processed `frames` in order. */
  function Replay(m: map<int, bool>, frames: seq<Frame>): map<int, bool>
  {
    if |frames| == 0 then m else EosUpdate(Replay(m, frames[..|frames| - 1]), frames[|frames| - 1])
  }

  /** A finished stream stays finished: no later frame, EOS or not, marks
      it running again. */
  lemma {:induction false} FinishedStaysFinished(m: map<int, bool>, frames: seq<Frame>, s: int)
    requires s in m && !m[s]
    ensures s in Replay(m, frames) && !Replay(m, frames)[s]
    decreases |frames|
  {
    if |frames| > 0 {
      FinishedStaysFinished(m, frames[..|frames| - 1], s);
    }
  }

  /** A stream that has been seen stays known: no frame removes an entry. */
  lemma {:induction false} KnownStaysKnown(m: map<int, bool>, frames: seq<Frame>)
    ensures m.Keys <= Replay(m, frames).Keys
    decreases |frames|
  {
    if |frames| > 0 {
      KnownStaysKnown(m, frames[..|frames| - 1]);
    }
  }

  /** A stream whose EOS has been processed after it was known is
      finished, whatever came before. */
  lemma EosFinishesKnownStream(m: map<int, bool>, frames: seq<Frame>, f: Frame)
    requires f.isEos && f.streamId in m
    ensures f.streamId in Replay(m, frames + [f]) && !Replay(m, frames + [f])[f.streamId]
  {
    assert (frames + [f])[..|frames|] == frames;
    KnownStaysKnown(m, frames);
  }

  /** The loop of AddLink over the sources. */
  method LinkMatching(sources: seq<Node>, current: string, target: Option<nat>) returns (found: bool, linked: seq<Node>)
    ensures found <==> HasSource(sources, current)
    ensures linked == LinkSources(sources, current, target)
  {
    found := false;
    linked := [];
    var i := 0;
    while i < |sources|
      invariant 0 <= i <= |sources| && |linked| == i
      invariant found <==> exists j :: 0 <= j < i && sources[j].name == current
      invariant forall j :: 0 <= j < i ==>
        linked[j] == if sources[j].name == current then sources[j].(next := target) else sources[j]
    {
      if sources[i].name == current {
        linked := linked + [sources[i].(next := target)];
        found := true;
      } else {
        linked := linked + [sources[i]];
      }
      i := i + 1;
    }
  }

  /** EasyPipeline: the source list, the module list and the flags. */
  class Pipeline {
    var sources: seq<Node>
    var nodes: seq<Node>
    var sourceAdded: bool
    var running: bool
    var started: bool

    /** Links point into the module list, each module has one queue per
        worker, and queued frames sit in their stream's queue. */
    predicate Valid()
      reads this
    {
      (forall i :: 0 <= i < |sources| ==> sources[i].next.Some? ==> sources[i].next.value < |nodes|) &&
      (forall i :: 0 <= i < |nodes| ==>
        (nodes[i].next.Some? ==> nodes[i].next.value < |nodes|) &&
        |nodes[i].queues| == QueueCount(nodes[i].parallelism) && Routed(nodes[i]))
    }

    constructor ()
      ensures Valid() && sources == [] && nodes == [] && !sourceAdded && !running && !started
    {
      sources, nodes := [], [];
      sourceAdded, running, started := false, false, false;
    }

    /** AddSource: always succeeds; the source gets no input queue, starts
        with stream 0 marked running, and no check is made against names
        already used. */
    method AddSource(name: string, parallelism: int) returns (r: int)
      requires Valid()
      modifies this`sources, this`sourceAdded
      ensures Valid() && r == 0 && sourceAdded
      ensures sources == old(sources) + [Node(name, parallelism, None, [], map[0 := true])]
    {
      sourceAdded := true;
      sources := sources + [Node(name, parallelism, None, [], map[0 := true])];
      r := 0;
    }

    /** AddModule: a name already in the module list is refused with -1;
        otherwise the node is appended with one empty queue per worker. A
        negative parallelism reaches `reserve` as a huge size_t, which
        throws std::length_error before the node is appended. */
    method AddModule(name: string, parallelism: int) returns (r: Result<int, PipelineError>)
      requires Valid()
      modifies this`nodes
      ensures Valid()
      ensures r == Ok(-1) <==> FindByName(old(nodes), name).Some?
      ensures r == Err(LengthError) <==> FindByName(old(nodes), name).None? && parallelism < 0
      ensures r.Ok? && r.value == 0 <==> FindByName(old(nodes), name).None? && parallelism >= 0
      ensures r != Ok(0) ==> nodes == old(nodes)
      ensures r == Ok(0) ==> nodes == old(nodes) + [Node(name, parallelism, None, EmptyQueues(parallelism), map[])]
    {
      if FindByName(nodes, name).Some? {
        return Ok(-1);
      }
      if parallelism < 0 {
        return Err(LengthError);
      }
      var n := Node(name, parallelism, None, EmptyQueues(parallelism), map[]);
      nodes := nodes + [n];
      r := Ok(0);
    }

    /** AddLink: every source named `current` is pointed at the module named
        `next` (at nothing when there is no such module) and the call
        succeeds; with no such source, both modules must exist and the
        first is pointed at the second, else -1 and nothing changes. */
    method AddLink(current: string, next: string) returns (r: int)
      requires Valid()
      modifies this`sources, this`nodes
      ensures Valid()
      ensures var target := FindByName(old(nodes), next);
        if HasSource(old(sources), current) then
          r == 0 && sources == LinkSources(old(sources), current, target) && nodes == old(nodes)
        else
          var cur := FindByName(old(nodes), current);
          sources == old(sources) &&
          if cur.Some? && target.Some? then
            r == 0 && nodes == old(nodes)[cur.value := old(nodes)[cur.value].(next := target)]
          else
            r == -1 && nodes == old(nodes)
    {
      var target := FindByName(nodes, next);
      var found;
      found, sources := LinkMatching(sources, current, target);
      if found {
        return 0;
      }
      var cur := FindByName(nodes, current);
      if cur.Some? && target.Some? {
        nodes := nodes[cur.value := nodes[cur.value].(next := target)];
        return 0;
      }
      r := -1;
    }

    /** Start: without a source it fails with -1 and sets nothing; otherwise
        the pipeline runs if BuildEasyPipeline (`buildOk`) succeeds, and
        is left not running if it fails. */
    method Start(buildOk: bool) returns (r: int)
      modifies this`running, this`started
      ensures !old(sourceAdded) ==> r == -1 && running == old(running) && started == old(started)
      ensures old(sourceAdded) && !buildOk ==> r == -1 && !running && started == old(started)
      ensures old(sourceAdded) && buildOk ==> r == 0 && running && started
    {
      if !sourceAdded {
        return -1;
      }
      running := true;
      if !buildOk {
        running := false;
        return -1;
      }
      started := true;
      r := 0;
    }

    /** ProcessFrameEos: updates the stream map of the node that processed
        the frame. */
    method ProcessFrameEos(node: NodeRef, frame: Frame) returns (r: int)
      requires Valid()
      requires node.SourceRef? ==> node.i < |sources|
      requires node.ModuleRef? ==> node.i < |nodes|
      modifies this`sources, this`nodes
      ensures Valid() && r == 0
      ensures node.SourceRef? ==>
        nodes == old(nodes) && sources == old(sources)[node.i := old(sources)[node.i].(streams := EosUpdate(old(sources)[node.i].streams, frame))]
      ensures node.ModuleRef? ==>
        sources == old(sources) && nodes == old(nodes)[node.i := old(nodes)[node.i].(streams := EosUpdate(old(nodes)[node.i].streams, frame))]
    {
      if node.SourceRef? {
        var n := sources[node.i];
        sources := sources[node.i := n.(streams := EosUpdate(n.streams, frame))];
      } else {
        var n := nodes[node.i];
        nodes := nodes[node.i := n.(streams := EosUpdate(n.streams, frame))];
      }
      r := 0;
    }

    /** The send callbacks of Taskloop: a frame a node has processed is
        pushed onto the input queue of its stream at the next node, if
        there is one; a source also marks its stream 0 finished when the
        frame is an EOS. The next node's parallelism must be positive (the
        source divides by it). */
    method SendData(from: NodeRef, frame: Frame)
      requires Valid()
      requires from.SourceRef? ==> from.i < |sources|
      requires from.ModuleRef? ==> from.i < |nodes|
      requires var n := if from.SourceRef? then sources[from.i] else nodes[from.i];
        n.next.Some? ==> nodes[n.next.value].parallelism > 0
      modifies this`sources, this`nodes
      ensures Valid()
      ensures var n := if from.SourceRef? then old(sources)[from.i] else old(nodes)[from.i];
        if n.next.None? then nodes == old(nodes)
        else
          var k := n.next.value;
          var target := old(nodes)[k];
          var q := QueueOf(frame.streamId, target.parallelism);
          nodes == old(nodes)[k := target.(queues := target.queues[q := target.queues[q] + [frame]])]
      ensures from.ModuleRef? ==> sources == old(sources)
      ensures from.SourceRef? ==>
        sources == if frame.isEos then old(sources)[from.i := old(sources)[from.i].(streams := old(sources)[from.i].streams[0 := false])] else old(sources)
    {
      var n := if from.SourceRef? then sources[from.i] else nodes[from.i];
      if n.next.Some? {
        var k := n.next.value;
        var target := nodes[k];
        var q := QueueOf(frame.streamId, target.parallelism);
        var pushed := target.(queues := target.queues[q := target.queues[q] + [frame]]);
        assert Routed(pushed);
        nodes := nodes[k := pushed];
      }
      if from.SourceRef? && frame.isEos {
        var s := sources[from.i];
        sources := sources[from.i := s.(streams := s.streams[0 := false])];
      }
    }
  }
}
