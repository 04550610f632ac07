/** What a follower hears, from the moment the leader publishes: the reply or its own timeout, and which of the two. */
module Delivery {
  import opened Text
  import opened Resolver
  import Breaker
  import FanOut
  import NegativeCache
  import Singleflight

  predicate IsTimeout(reply: Reply) {
    reply == Err(TIMEOUT_TEXT)
  }

  /** No lookup replies with the text of a follower's timeout. */
  ghost predicate RepliesOk(w: World) {
    forall c :: 0 <= c < |w.chans| && w.chans[c].reply.Some? ==> !IsTimeout(w.chans[c].reply.value)
  }

  lemma LookupIsNoTimeout(r: Request, arrivals: seq<Arrival>)
    ensures !IsTimeout(LookupReply(r, arrivals))
  {
    var reply := LookupReply(r, arrivals);
    if reply.Err? {
      TextIsNoTimeout(reply.error);
      var seen := Outcomes(arrivals);
      assert seen == [] || !FanOut.IsMatch(seen[|seen| - 1], FanOut.Accepting(r.accept));
      assert reply.error[0] == 'a' || reply.error[0] == 'i';
    }
  }

  lemma TextIsNoTimeout(text: string)
    ensures text != "" && text[0] != 's' ==> !IsTimeout(Err(text))
  {
    assert TIMEOUT_TEXT[0] == 's';
  }

  lemma ReturnReplies(w: World, t: nat, role: Role, consulted: seq<string>, arrivals: seq<Arrival>, reply: Reply)
    requires RepliesOk(w) && t < |w.tasks| && (role.Leader? ==> role.chan < |w.chans|) && !IsTimeout(reply)
    ensures RepliesOk(Return(w, t, role, consulted, arrivals, reply))
  {
    hide IsTimeout;
  }

  lemma FilterReplies(cfg: Config, w: World, t: nat, now: nat)
    requires RepliesOk(w) && t < |w.tasks| && w.tasks[t].pc.Filtering? && LeadsChan(w, t)
    ensures RepliesOk(ApplyFilter(cfg, w, t, now))
  {
    var role := w.tasks[t].pc.role;
    TextIsNoTimeout(FanOut.NO_PROJECTS);
    TextIsNoTimeout(FanOut.NONE_AVAILABLE);
    hide IsTimeout;
    ReturnReplies(w, t, role, [], [], Err(FanOut.NO_PROJECTS));
    ReturnReplies(w, t, role, [], [], Err(FanOut.NONE_AVAILABLE));
    hide Return, Limit, Breaker.Admits, Breaker.Replay;
  }

  lemma StepReplies(cfg: Config, w: World, s: Step)
    requires RepliesOk(w) && Enabled(cfg, w, s)
    ensures RepliesOk(Apply(cfg, w, s))
  {
    hide IsTimeout, ApplyFilter, Return, Goto, ApplyLookUp, ApplyFetch, ApplyStore, ApplyStoreImage, ApplyAmbient;
    match s
    case Filter(t, now) => FilterReplies(cfg, w, t, now);
    case StopCollecting(t) =>
      var pc := w.tasks[t].pc;
      LookupIsNoTimeout(w.tasks[t].request, pc.arrivals);
      ReturnReplies(w, t, pc.role, pc.consulted, pc.arrivals, LookupReply(w.tasks[t].request, pc.arrivals));
      hide LookupReply;
    case Join(t) => JoinReplies(w, t); hide ApplyJoin;
    case Publish(t) => PublishReplies(w, t); hide ApplyPublish;
    case Collect(_, _, _, _) => CollectReplies(cfg, w, s);
    case _ => NegativeCache.IdleMove(cfg, w, s); hide Apply;
  }

  lemma JoinReplies(w: World, t: nat)
    requires RepliesOk(w) && t < |w.tasks|
    ensures RepliesOk(ApplyJoin(w, t))
  {
    hide Key, IsTimeout;
  }

  lemma PublishReplies(w: World, t: nat)
    requires RepliesOk(w) && t < |w.tasks| && w.tasks[t].pc.Publishing? && w.tasks[t].pc.chan < |w.chans|
    ensures RepliesOk(ApplyPublish(w, t))
  {
    hide SomeReceiver, IsTimeout;
  }

  lemma CollectReplies(cfg: Config, w: World, s: Step)
    requires RepliesOk(w) && s.Collect? && Enabled(cfg, w, s)
    ensures RepliesOk(Apply(cfg, w, s))
  {
    hide Matched, BreakerEvents, IsTimeout;
  }

  lemma {:induction false} RunReplies(cfg: Config, w: World, steps: seq<Step>)
    requires RepliesOk(w) && Legal(cfg, w, steps)
    ensures RepliesOk(Run(cfg, w, steps))
    decreases |steps|
  {
    hide RepliesOk, Apply, Enabled;
    if steps != [] {
      StepReplies(cfg, w, steps[0]);
      RunReplies(cfg, Apply(cfg, w, steps[0]), steps[1..]);
    }
  }

  /** The late follower. In any reachable state a leader is about to publish, and another task has taken the sender
      from the map but not subscribed yet. However the run goes on, that task ends with the leader's reply exactly if
      some receiver was alive at the publish, and with its own timeout otherwise; it ends in no other way, except by
      being cancelled. */
  lemma LateFollowerEnds(cfg: Config, hot: map<string, string>, before: seq<Step>, t: nat, u: nat, after: seq<Step>)
    requires Legal(cfg, Init(hot), before)
    requires
      var w := Run(cfg, Init(hot), before);
      && Enabled(cfg, w, Publish(t))
      && u < |w.tasks| && w.tasks[u].pc == Subscribing(w.tasks[t].pc.chan)
      && Legal(cfg, Apply(cfg, w, Publish(t)), after)
    ensures
      var w := Run(cfg, Init(hot), before);
      var w' := Run(cfg, Apply(cfg, w, Publish(t)), after);
      var reply, heard := w.tasks[t].pc.reply, SomeReceiver(w.tasks, w.tasks[t].pc.chan);
      && u < |w'.tasks| && !w'.tasks[u].pc.Ended?
      && (w'.tasks[u].pc.Finished? ==>
            && (w'.tasks[u].pc.reply == reply <==> heard)
            && (w'.tasks[u].pc.reply == Err(TIMEOUT_TEXT) <==> !heard))
  {
    var w := Run(cfg, Init(hot), before);
    var c, reply, heard := w.tasks[t].pc.chan, w.tasks[t].pc.reply, SomeReceiver(w.tasks, w.tasks[t].pc.chan);
    Singleflight.ReachableInv(cfg, hot, before);
    assert RepliesOk(Init(hot));
    RunReplies(cfg, Init(hot), before);
    hide Run, Legal;
    assert Singleflight.TaskOk(w, t);
    Singleflight.SendIsHeardIff(cfg, w, t);
    Singleflight.StepKeepsInv(cfg, w, Publish(t));
    PublishedState(cfg, w, t, u);
    hide Apply, Enabled, Singleflight.Inv, Singleflight.TaskOk, SomeReceiver;
    Singleflight.LateFollower(cfg, Apply(cfg, w, Publish(t)), after, u, c, heard, reply);
  }

  lemma PublishedState(cfg: Config, w: World, t: nat, u: nat)
    requires Singleflight.Inv(w) && Enabled(cfg, w, Publish(t))
    requires u < |w.tasks| && w.tasks[u].pc == Subscribing(w.tasks[t].pc.chan)
    ensures
      var w' := Apply(cfg, w, Publish(t));
      var c := w.tasks[t].pc.chan;
      && u < |w'.tasks| && w'.tasks[u].pc == Subscribing(c)
      && Singleflight.Sent(w', c, SomeReceiver(w.tasks, c), w.tasks[t].pc.reply)
  {
    assert Singleflight.TaskOk(w, t);
    assert Singleflight.ChanOk(w.chans[w.tasks[t].pc.chan]);
    hide SomeReceiver, Key;
  }
}
