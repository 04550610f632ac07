/** Concrete runs, from the initial state, of the two ways in which a flight goes wrong, and a concrete error text
    that is taken for "not found". */
module Incidents {
  import opened Text
  import opened Resolver
  import Breaker
  import FanOut
  import Singleflight

  ghost predicate Reaches(cfg: Config, w: World) {
    exists steps :: Legal(cfg, Init(map[]), steps) && Run(cfg, Init(map[]), steps) == w
  }

  lemma {:induction false} RunSnoc(cfg: Config, w: World, steps: seq<Step>, s: Step)
    requires Legal(cfg, w, steps) && Enabled(cfg, Run(cfg, w, steps), s)
    ensures Legal(cfg, w, steps + [s]) && Run(cfg, w, steps + [s]) == Apply(cfg, Run(cfg, w, steps), s)
    decreases |steps|
  {
    hide Apply, Enabled;
    if steps == [] {
      assert [] + [s] == [s] && [s][1..] == [];
    } else {
      assert (steps + [s])[1..] == steps[1..] + [s];
      RunSnoc(cfg, Apply(cfg, w, steps[0]), steps[1..], s);
    }
  }

  lemma Then(cfg: Config, w: World, s: Step) returns (w': World)
    requires Reaches(cfg, w) && Enabled(cfg, w, s)
    ensures w' == Apply(cfg, w, s) && Reaches(cfg, w')
  {
    var steps :| Legal(cfg, Init(map[]), steps) && Run(cfg, Init(map[]), steps) == w;
    RunSnoc(cfg, Init(map[]), steps, s);
    w' := Apply(cfg, w, s);
  }

  lemma Start(cfg: Config)
    ensures Reaches(cfg, Init(map[]))
  {
    assert Legal(cfg, Init(map[]), []) && Run(cfg, Init(map[]), []) == Init(map[]);
  }

  /** One project, as any deployment may have. */
  predicate OneProject(cfg: Config, p: string) {
    cfg.projects == [p] && cfg.maxFanout >= 1 && 1 <= cfg.threshold < Breaker.U32
  }

  function NewChan(r: Request): Chan {
    Chan(Key(r), 0, None, 0, [], [], None, false, false)
  }

  /** Two requests for the same manifest miss the cache; the first leads, the second takes the sender. */
  lemma TwoRequests(cfg: Config, p: string, r: Request) returns (w: World)
    requires OneProject(cfg, p)
    ensures Reaches(cfg, w) && w.flights == map[Key(r) := 0] && w.chans == [NewChan(r)]
    ensures w.tasks == [Task(r, Filtering(Leader(0), 0, [])), Task(r, Subscribing(0))] && w.breaker == []
  {
    hide Reaches, Key;
    Start(cfg);
    w := Init(map[]);
    w := Then(cfg, w, Arrive(r));
    w := Then(cfg, w, Arrive(r));
    assert w.tasks == [Task(r, LookingUp), Task(r, LookingUp)] && w.cache == map[];
    w := Then(cfg, w, LookUp(0, 0));
    w := Then(cfg, w, LookUp(1, 0));
    assert w.tasks == [Task(r, Joining), Task(r, Joining)];
    w := Then(cfg, w, Join(0));
    assert w.tasks == [Task(r, Filtering(Leader(0), 0, [])), Task(r, Joining)];
    w := Then(cfg, w, Join(1));
  }

  /** The leader asks the project. */
  lemma LeaderAsks(cfg: Config, p: string, r: Request) returns (w: World)
    requires OneProject(cfg, p)
    ensures Reaches(cfg, w) && w.flights == map[Key(r) := 0] && w.chans == [NewChan(r)]
    ensures w.tasks == [Task(r, Collecting(Leader(0), [p], [])), Task(r, Subscribing(0))]
  {
    hide Reaches, Key;
    w := TwoRequests(cfg, p, r);
    assert Limit(cfg) == 1 && cfg.projects[0] == p;
    Breaker.NoFailureNoRefusal(w.breaker, p, cfg.threshold, cfg.breakerTimeout, 0);
    hide Breaker.Replay, Breaker.Admits, Limit;
    w := Then(cfg, w, Filter(0, 0));
    assert w.tasks[0].pc == Filtering(Leader(0), 1, [] + [p]);
    assert [] + [p] == [p];
    assert w.tasks == [Task(r, Filtering(Leader(0), 1, [p])), Task(r, Subscribing(0))];
    w := Then(cfg, w, Filter(0, 0));
  }

  /** An unheard reply: the leader publishes before the follower subscribes, nobody keeps the value, and the follower
      waits for a reply that has been sent already. It can receive nothing; only its timeout ends it. */
  lemma UnheardPublish(cfg: Config, p: string, r: Request) returns (w: World, reply: Reply)
    requires OneProject(cfg, p)
    ensures Reaches(cfg, w) && w.tasks == [Task(r, Removing(0, reply)), Task(r, Waiting(0, false, 0))]
    ensures |w.chans| == 1 && w.chans[0].sent && w.chans[0].reply == Some(reply) && w.chans[0].value == None
    ensures !Enabled(cfg, w, Receive(1)) && !Enabled(cfg, w, SendersGone(1)) && Enabled(cfg, w, TimeOut(1))
  {
    hide Reaches, Key, SomeReceiver, SomeSender;
    w, reply := Unheard(cfg, p, r);
    w := Then(cfg, w, Subscribe(1));
    assert w.tasks == [Task(r, Removing(0, reply)), Task(r, Peeking(0, false))];
    w := Then(cfg, w, Peek(1));
    Singleflight.NeverWithoutSender(cfg, w, 1);
  }

  lemma Unheard(cfg: Config, p: string, r: Request) returns (w: World, reply: Reply)
    requires OneProject(cfg, p)
    ensures Reaches(cfg, w) && w.tasks == [Task(r, Removing(0, reply)), Task(r, Subscribing(0))] && |w.chans| == 1
    ensures w.chans[0].sent && w.chans[0].reply == Some(reply) && w.chans[0].value == None && w.chans[0].version == 0
  {
    w, reply := Answered(cfg, p, r);
    hide Reaches, Key;
    assert !SomeReceiver(w.tasks, 0);
    w := Then(cfg, w, Publish(0));
  }

  lemma Answered(cfg: Config, p: string, r: Request) returns (w: World, reply: Reply)
    requires OneProject(cfg, p)
    ensures Reaches(cfg, w) && |w.chans| == 1 && w.chans[0].value == None && w.chans[0].version == 0
    ensures w.tasks == [Task(r, Publishing(0, reply)), Task(r, Subscribing(0))] && w.chans[0].reply == Some(reply)
  {
    hide Reaches, Key;
    w := OneAnswer(cfg, p, r);
    var arrivals := w.tasks[0].pc.arrivals;
    reply := LookupReply(r, arrivals);
    hide LookupReply, Matched;
    w := Then(cfg, w, StopCollecting(0));
  }

  lemma OneAnswer(cfg: Config, p: string, r: Request) returns (w: World)
    requires OneProject(cfg, p)
    ensures Reaches(cfg, w) && w.chans == [NewChan(r)]
    ensures w.tasks == [Task(r, Collecting(Leader(0), [p], [Arrival(0, Ok(FanOut.Response(p, 404, "")))])),
        Task(r, Subscribing(0))]
  {
    hide Reaches, Key;
    w := LeaderAsks(cfg, p, r);
    var answer := Ok(FanOut.Response(p, 404, ""));
    assert !Matched([], r.accept);
    hide BreakerEvents, Matched;
    w := Then(cfg, w, Collect(0, 0, answer, 0));
    assert [] + [Arrival(0, answer)] == [Arrival(0, answer)];
    assert w.tasks[0].pc == Collecting(Leader(0), [p], [Arrival(0, answer)]);
  }

  /** A dropped leader: its client goes away while the project is asked. The flight stays, and the other request waits
      on it without anybody who could answer. */
  lemma DroppedLeader(cfg: Config, p: string, r: Request) returns (w: World)
    requires OneProject(cfg, p)
    ensures Reaches(cfg, w) && Singleflight.Wedged(w, Key(r), 0)
    ensures w.tasks == [Task(r, Cancelled), Task(r, Waiting(0, true, 0))]
    ensures !Enabled(cfg, w, Receive(1)) && !Enabled(cfg, w, SendersGone(1)) && Enabled(cfg, w, TimeOut(1))
  {
    hide Reaches, Key;
    w := LeaderAsks(cfg, p, r);
    w := Then(cfg, w, Cancel(0));
    assert w.tasks == [Task(r, Cancelled), Task(r, Subscribing(0))] && w.chans == [NewChan(r)];
    w := WaitInVain(cfg, w, r);
  }

  lemma WaitInVain(cfg: Config, w: World, r: Request) returns (w': World)
    requires Reaches(cfg, w) && w.flights == map[Key(r) := 0] && w.chans == [NewChan(r)]
    requires w.tasks == [Task(r, Cancelled), Task(r, Subscribing(0))]
    ensures Reaches(cfg, w') && w'.flights == w.flights && w'.chans == w.chans
    ensures w'.tasks == [Task(r, Cancelled), Task(r, Waiting(0, true, 0))]
    ensures !Enabled(cfg, w', Receive(1)) && !Enabled(cfg, w', SendersGone(1)) && Enabled(cfg, w', TimeOut(1))
  {
    hide Reaches, Key, SomeSender;
    w' := Then(cfg, w, Subscribe(1));
    assert w'.tasks == [Task(r, Cancelled), Task(r, Peeking(0, true))];
    w' := Then(cfg, w', Peek(1));
    Singleflight.NeverWithoutSender(cfg, w', 1);
  }

  const ODD_PROJECT := "x " + FanOut.NOT_FOUND_PHRASE

  /** The text of a project's own timeout. */
  function ProbeTimeoutText(project: string): string {
    "timeout probing " + project
  }

  /** A text ending in the phrase is classified "not found": the timeout of a project with a name to match. */
  lemma OddProjectTimesOutAsNotFound()
    ensures FanOut.IsAllProjectsNon200(FanOut.FAILED_PREFIX + ProbeTimeoutText(ODD_PROJECT))
  {
    var text := ProbeTimeoutText(ODD_PROJECT);
    assert OccursAt(text, FanOut.NOT_FOUND_PHRASE, |text| - |FanOut.NOT_FOUND_PHRASE|);
    FanOut.PrefixAddsNothing(text);
  }

  /** And a name that may appear in a URL. */
  lemma OddProjectIsSafe()
    ensures IsSafeProjectName(ODD_PROJECT)
  {
    OddProjectIsTrimmed();
    assert '.' !in FanOut.NOT_FOUND_PHRASE && '/' !in FanOut.NOT_FOUND_PHRASE && '\\' !in FanOut.NOT_FOUND_PHRASE;
    FanOut.NotOccurring(ODD_PROJECT, "..", 0);
    hide TrimStart, TrimEnd, Contains;
  }

  lemma OddProjectIsTrimmed()
    ensures Trim(ODD_PROJECT) == ODD_PROJECT
  {
    var name := ODD_PROJECT;
    assert TrimStart(name) == name;
    assert name[|name| - 1] == FanOut.NOT_FOUND_PHRASE[35] == 't';
    assert TrimEnd(name) == name;
  }
}
