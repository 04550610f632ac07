/** What the singleflight map and its watch channels guarantee in every reachable state: at most one live
    leader per key, each flight removed by its own leader, and exact delivery to followers. */
module Singleflight {
  import opened Text
  import opened Resolver
  import FanOut
  import Breaker
  import CacheCodec
  import CacheKeys

  /** A channel carries a value exactly if its reply was sent while a receiver was alive. */
  predicate ChanOk(c: Chan) {
    && (!c.sent ==> c.value.None? && c.version == 0 && !c.heard)
    && (c.sent ==> c.reply.Some?)
    && (c.sent && c.heard ==> c.value == c.reply && c.version == 1)
    && (c.sent && !c.heard ==> c.value.None? && c.version == 0)
  }

  ghost predicate ChanOfTask(w: World, t: nat, c: nat)
    requires t < |w.tasks|
  {
    c < |w.chans| && w.chans[c].key == Key(w.tasks[t].request)
  }

  ghost predicate LeaderOk(w: World, t: nat, c: nat)
    requires t < |w.tasks|
  {
    var key := Key(w.tasks[t].request);
    && ChanOfTask(w, t, c) && w.chans[c].leader == t
    && key in w.flights && w.flights[key] == c
  }

  ghost predicate TaskOk(w: World, t: nat)
    requires t < |w.tasks|
  {
    match w.tasks[t].pc
    case Filtering(Leader(c), _, _) => LeaderOk(w, t, c) && !w.chans[c].sent && w.chans[c].reply.None?
    case Collecting(Leader(c), _, _) => LeaderOk(w, t, c) && !w.chans[c].sent && w.chans[c].reply.None?
    case Publishing(c, reply) => LeaderOk(w, t, c) && !w.chans[c].sent && w.chans[c].reply == Some(reply)
    case Removing(c, reply) => LeaderOk(w, t, c) && w.chans[c].sent && w.chans[c].reply == Some(reply)
    case Subscribing(c) => ChanOfTask(w, t, c)
    case Peeking(c, early) =>
      ChanOfTask(w, t, c) && (if early then w.chans[c].sent ==> w.chans[c].heard else w.chans[c].sent)
    case Waiting(c, early, seen) =>
      ChanOfTask(w, t, c) && seen == 0
          && (if early then w.chans[c].sent ==> w.chans[c].heard else w.chans[c].sent && !w.chans[c].heard)
    case Storing(reply, via) => ViaOk(w, t, reply, via)
    case StoringImage(reply, via) => ViaOk(w, t, reply, via)
    case _ => true
  }

  /** A reply on its way to the cache is the one its flight sent, or the follower's own timeout. */
  ghost predicate ViaOk(w: World, t: nat, reply: Reply, via: Option<nat>)
    requires t < |w.tasks|
  {
    match via
    case None => reply == Err(TIMEOUT_TEXT)
    case Some(c) => ChanOfTask(w, t, c) && w.chans[c].sent && w.chans[c].reply == Some(reply)
  }

  /** A leader whose client went away while it was waiting for the projects. */
  ghost predicate Stranded(w: World, c: nat) {
    c < |w.chans| && w.chans[c].leader < |w.tasks| && w.tasks[w.chans[c].leader].pc.Cancelled? && !w.chans[c].sent
  }

  ghost predicate FlightOk(w: World, key: string)
    requires key in w.flights
  {
    var c := w.flights[key];
    && c < |w.chans| && w.chans[c].key == key && w.chans[c].leader < |w.tasks|
    && (Leads(w.tasks[w.chans[c].leader].pc) == Some(c) || Stranded(w, c))
  }

  ghost predicate Inv(w: World) {
    && (forall c :: 0 <= c < |w.chans| ==> ChanOk(w.chans[c]))
    && (forall t :: 0 <= t < |w.tasks| ==> TaskOk(w, t))
    && (forall key :: key in w.flights ==> FlightOk(w, key))
  }

  /** A step of task `t`: other tasks, and the flights and channels that `t` does not lead, stay as they are. */
  ghost predicate Frame(w: World, w': World, t: nat) {
    && |w.tasks| <= |w'.tasks| && |w.chans| <= |w'.chans|
    && (forall u :: 0 <= u < |w.tasks| ==> w'.tasks[u].request == w.tasks[u].request)
    && (forall u :: 0 <= u < |w.tasks| && u != t ==> w'.tasks[u] == w.tasks[u])
    && (forall u :: |w.tasks| <= u < |w'.tasks| ==>
          w'.tasks[u].pc.LookingUp? || (w'.tasks[u].pc.Filtering? && w'.tasks[u].pc.role.Refresher?))
    && (forall c :: 0 <= c < |w.chans| ==> Grows(w, w.chans[c], w'.chans[c], t, c))
    && (forall key :: key in w.flights && w.flights[key] < |w.chans| && w.chans[w.flights[key]].leader != t ==>
          key in w'.flights && w'.flights[key] == w.flights[key])
    && (forall key :: key in w'.flights && key !in w.flights ==> t < |w'.tasks| && FlightOk(w', key))
  }

  ghost predicate Grows(w: World, a: Chan, b: Chan, t: nat, c: nat) {
    && a.key == b.key && a.leader == b.leader
    && (a.leader != t || a.sent ==> a == b)
    && (!a.sent && b.sent ==> (SomeReceiver(w.tasks, c) ==> b.heard))
  }

  lemma OthersKeep(w: World, w': World, t: nat, u: nat)
    requires Frame(w, w', t) && u < |w.tasks| && u != t && TaskOk(w, u)
    requires forall key :: key in w.flights ==> FlightOk(w, key)
    ensures TaskOk(w', u)
  {
    var pc := w.tasks[u].pc;
    assert w'.tasks[u] == w.tasks[u];
    if (pc.Peeking? || pc.Waiting?) && pc.chan < |w.chans| {
      assert HasReceiver(w.tasks[u].pc, pc.chan);
      assert Grows(w, w.chans[pc.chan], w'.chans[pc.chan], t, pc.chan);
    }
    if (pc.Storing? || pc.StoringImage?) && pc.via.Some? {
      assert Grows(w, w.chans[pc.via.value], w'.chans[pc.via.value], t, pc.via.value);
    }
    if Leads(pc).Some? {
      var c := Leads(pc).value;
      assert Grows(w, w.chans[c], w'.chans[c], t, c);
    }
    if pc.Subscribing? {
      assert Grows(w, w.chans[pc.chan], w'.chans[pc.chan], t, pc.chan);
    }
  }

  lemma KeepInv(w: World, w': World, t: nat)
    requires Inv(w) && Frame(w, w', t)
    requires t < |w'.tasks| ==> TaskOk(w', t)
    requires forall c :: 0 <= c < |w'.chans| ==> ChanOk(w'.chans[c])
    requires forall key :: key in w'.flights && key in w.flights && w.chans[w.flights[key]].leader == t ==>
        FlightOk(w', key)
    ensures Inv(w')
  {
    forall u | 0 <= u < |w'.tasks|
      ensures TaskOk(w', u)
    {
      if u < |w.tasks| && u != t { OthersKeep(w, w', t, u); }
    }
    forall key | key in w'.flights
      ensures FlightOk(w', key)
    {
      if key in w.flights && w.chans[w.flights[key]].leader != t {
        assert FlightOk(w, key);
        var c := w.flights[key];
        assert Grows(w, w.chans[c], w'.chans[c], t, c);
      }
    }
  }

  /** Steps that leave the flights and the channels alone. */
  lemma QuietKeepsInv(w: World, w': World, t: nat)
    requires Inv(w) && w'.flights == w.flights && w'.chans == w.chans
    requires |w.tasks| <= |w'.tasks|
    requires forall u :: 0 <= u < |w.tasks| ==> w'.tasks[u].request == w.tasks[u].request
    requires forall u :: 0 <= u < |w.tasks| && u != t ==> w'.tasks[u] == w.tasks[u]
    requires forall u :: |w.tasks| <= u < |w'.tasks| ==>
               w'.tasks[u].pc.LookingUp? || (w'.tasks[u].pc.Filtering? && w'.tasks[u].pc.role.Refresher?)
    requires t < |w'.tasks| ==> TaskOk(w', t)
    requires t < |w.tasks| ==> !w.tasks[t].pc.Cancelled?
    requires t < |w.tasks| && Leads(w.tasks[t].pc).Some? ==>
               var c := Leads(w.tasks[t].pc).value;
               Leads(w'.tasks[t].pc) == Some(c) || (c < |w.chans| && w'.tasks[t].pc.Cancelled? && !w.chans[c].sent)
    ensures Inv(w')
  {
    assert Frame(w, w', t);
    forall key | key in w'.flights && w.chans[w.flights[key]].leader == t
      ensures FlightOk(w', key)
    {
      assert FlightOk(w, key);
    }
    KeepInv(w, w', t);
  }

  /** A program counter that refers to no flight. */
  predicate Plain(pc: Pc) {
    match pc
    case Filtering(role, _, _) => role.Refresher?
    case Collecting(role, _, _) => role.Refresher?
    case _ =>
      !(pc.Publishing? || pc.Removing? || pc.Subscribing? || pc.Peeking? || pc.Waiting?
        || pc.Storing? || pc.StoringImage?)
  }

  lemma PlainMoveKeepsInv(w: World, w': World, t: nat, pc: Pc)
    requires Inv(w) && t < |w.tasks| && Leads(w.tasks[t].pc).None? && !w.tasks[t].pc.Cancelled? && Plain(pc)
    requires w'.tasks == w.tasks[t := w.tasks[t].(pc := pc)] && w'.flights == w.flights && w'.chans == w.chans
    ensures Inv(w')
  {
    hide Key;
    QuietKeepsInv(w, w', t);
  }

  /** A leader's lookup returns: its channel records the reply. */
  lemma ReturnKeepsInv(w: World, t: nat, role: Role, consulted: seq<string>, arrivals: seq<Arrival>, reply: Reply)
    requires Inv(w) && t < |w.tasks| && role.Leader? && Leads(w.tasks[t].pc) == Some(role.chan)
    requires w.tasks[t].pc.Filtering? || w.tasks[t].pc.Collecting?
    requires role.chan < |w.chans|
    ensures Inv(Return(w, t, role, consulted, arrivals, reply))
  {
    var w' := Return(w, t, role, consulted, arrivals, reply);
    assert TaskOk(w, t);
    assert Frame(w, w', t);
    LeadKeepsFlights(w, w', t, role.chan);
    KeepInv(w, w', t);
  }

  lemma LeadKeepsFlights(w: World, w': World, t: nat, c: nat)
    requires Inv(w) && Frame(w, w', t) && t < |w.tasks| && w'.flights == w.flights
    requires Leads(w.tasks[t].pc) == Some(c) && Leads(w'.tasks[t].pc) == Some(c)
    ensures forall key :: key in w'.flights && w.chans[w.flights[key]].leader == t ==> FlightOk(w', key)
  {
    forall key | key in w'.flights && w.chans[w.flights[key]].leader == t
      ensures FlightOk(w', key)
    {
      assert FlightOk(w, key);
      assert TaskOk(w, t);
      assert Grows(w, w.chans[w.flights[key]], w'.chans[w.flights[key]], t, w.flights[key]);
    }
  }

  lemma PublishKeepsInv(w: World, t: nat)
    requires Inv(w) && t < |w.tasks| && w.tasks[t].pc.Publishing? && w.tasks[t].pc.chan < |w.chans|
    ensures Inv(ApplyPublish(w, t))
  {
    var w' := ApplyPublish(w, t);
    assert TaskOk(w, t);
    assert ChanOk(w.chans[w.tasks[t].pc.chan]);
    hide SomeReceiver;
    assert Frame(w, w', t);
    LeadKeepsFlights(w, w', t, w.tasks[t].pc.chan);
    KeepInv(w, w', t);
  }

  /** The remove takes out the leader's own flight. */
  lemma RemoveKeepsInv(cfg: Config, w: World, t: nat)
    requires Inv(w) && Enabled(cfg, w, Remove(t))
    ensures Inv(Apply(cfg, w, Remove(t)))
    ensures Key(w.tasks[t].request) in w.flights && w.flights[Key(w.tasks[t].request)] == w.tasks[t].pc.chan
  {
    hide Key;
    var w' := Apply(cfg, w, Remove(t));
    assert TaskOk(w, t);
    var key := Key(w.tasks[t].request);
    forall other | other in w.flights && w.chans[w.flights[other]].leader == t
      ensures other == key
    {
      assert FlightOk(w, other);
    }
    assert forall other :: other in w.flights && other != key ==>
        other in w'.flights && w'.flights[other] == w.flights[other];
    assert w.chans[w.flights[key]].leader == t;
    assert TaskOk(w', t);
    hide TaskOk, ChanOk, FlightOk;
    RemoveFrame(cfg, w, t);
    hide Frame;
    KeepInv(w, w', t);
  }

  lemma RemoveFrame(cfg: Config, w: World, t: nat)
    requires Enabled(cfg, w, Remove(t))
    requires
      var key := Key(w.tasks[t].request);
      key in w.flights && w.flights[key] < |w.chans| && w.chans[w.flights[key]].leader == t
    ensures Frame(w, Apply(cfg, w, Remove(t)), t)
  {
    hide Key, FlightOk;
  }

  lemma LeadKeepsInv(w: World, t: nat)
    requires Inv(w) && t < |w.tasks| && w.tasks[t].pc.Joining? && Key(w.tasks[t].request) !in w.flights
    ensures Inv(ApplyJoin(w, t))
  {
    hide Key;
    var w' := ApplyJoin(w, t);
    var key, c := Key(w.tasks[t].request), |w.chans|;
    assert w'.chans[c].key == key && w'.chans[c].leader == t && Leads(w'.tasks[t].pc) == Some(c);
    assert FlightOk(w', key);
    forall other | other in w.flights
      ensures w'.flights[other] == w.flights[other] && w.chans[w.flights[other]].leader != t
    {
      assert FlightOk(w, other);
    }
    assert Frame(w, w', t);
    KeepInv(w, w', t);
  }

  lemma FollowKeepsInv(w: World, t: nat)
    requires Inv(w) && t < |w.tasks| && w.tasks[t].pc.Joining? && Key(w.tasks[t].request) in w.flights
    ensures Inv(ApplyJoin(w, t))
  {
    hide Key;
    assert FlightOk(w, Key(w.tasks[t].request));
    QuietKeepsInv(w, ApplyJoin(w, t), t);
  }

  lemma SameRoleKeepsInv(w: World, w': World, t: nat, role: Role, pc: Pc)
    requires Inv(w) && t < |w.tasks| && w.tasks[t].pc.Filtering? && w.tasks[t].pc.role == role
    requires (pc.Filtering? || pc.Collecting?) && pc.role == role
    requires w'.tasks == w.tasks[t := w.tasks[t].(pc := pc)] && w'.flights == w.flights && w'.chans == w.chans
    ensures Inv(w')
  {
    hide Key;
    assert TaskOk(w, t);
    QuietKeepsInv(w, w', t);
  }

  lemma FilterMovesOn(cfg: Config, w: World, t: nat, now: nat)
    requires Inv(w) && t < |w.tasks| && w.tasks[t].pc.Filtering? && LeadsChan(w, t)
    requires cfg.projects != [] && (w.tasks[t].pc.next < Limit(cfg) || w.tasks[t].pc.consulted != [])
    ensures Inv(ApplyFilter(cfg, w, t, now))
  {
    hide Inv, Breaker.Replay, Breaker.Admits, Limit;
    var w' := ApplyFilter(cfg, w, t, now);
    SameRoleKeepsInv(w, w', t, w.tasks[t].pc.role, w'.tasks[t].pc);
  }

  lemma FilterGivesUp(w: World, t: nat, reply: Reply)
    requires Inv(w) && t < |w.tasks| && w.tasks[t].pc.Filtering? && LeadsChan(w, t)
    ensures Inv(Return(w, t, w.tasks[t].pc.role, [], [], reply))
  {
    var role := w.tasks[t].pc.role;
    if role.Leader? { ReturnKeepsInv(w, t, role, [], [], reply); }
    else { QuietKeepsInv(w, Return(w, t, role, [], [], reply), t); }
  }

  lemma FilterKeepsInv(cfg: Config, w: World, t: nat, now: nat)
    requires Inv(w) && Enabled(cfg, w, Filter(t, now))
    ensures Inv(ApplyFilter(cfg, w, t, now))
  {
    hide Inv, Breaker.Replay, Breaker.Admits, Return;
    if cfg.projects == [] { FilterGivesUp(w, t, Err(FanOut.NO_PROJECTS)); }
    else if w.tasks[t].pc.next >= Limit(cfg) && w.tasks[t].pc.consulted == [] {
      FilterGivesUp(w, t, Err(FanOut.NONE_AVAILABLE));
    } else { FilterMovesOn(cfg, w, t, now); }
  }

  lemma StopKeepsInv(cfg: Config, w: World, t: nat)
    requires Inv(w) && Enabled(cfg, w, StopCollecting(t))
    ensures Inv(Apply(cfg, w, StopCollecting(t)))
  {
    var pc := w.tasks[t].pc;
    hide LookupReply, MayStop;
    if pc.role.Leader? {
      ReturnKeepsInv(w, t, pc.role, pc.consulted, pc.arrivals, LookupReply(w.tasks[t].request, pc.arrivals));
    } else {
      QuietKeepsInv(w, Apply(cfg, w, StopCollecting(t)), t);
    }
  }

  lemma LookUpKeepsInv(cfg: Config, w: World, t: nat, now: nat)
    requires Inv(w) && t < |w.tasks| && w.tasks[t].pc.LookingUp?
    ensures Inv(ApplyLookUp(cfg, w, t, now))
  {
    hide Inv, ReadEntry, IsStale, Key, FanOut.NotFoundText;
    var w' := ApplyLookUp(cfg, w, t, now);
    PlainMoveKeepsInv(w, w', t, w'.tasks[t].pc);
  }

  lemma FetchKeepsInv(w: World, t: nat, outcome: Reply)
    requires Inv(w) && t < |w.tasks| && w.tasks[t].pc.Fetching?
    ensures Inv(ApplyFetch(w, t, outcome))
  {
    hide Inv, Key, FanOut.Is200;
    var w' := ApplyFetch(w, t, outcome);
    assert TaskOk(w', t);
    hide TaskOk;
    QuietKeepsInv(w, w', t);
  }

  lemma EvictKeepsInv(cfg: Config, w: World, t: nat)
    requires Inv(w) && Enabled(cfg, w, Evict(t))
    ensures Inv(Apply(cfg, w, Evict(t)))
  {
    QuietKeepsInv(w, Apply(cfg, w, Evict(t)), t);
  }

  lemma TimeOutKeepsInv(cfg: Config, w: World, t: nat)
    requires Inv(w) && Enabled(cfg, w, TimeOut(t))
    ensures Inv(Apply(cfg, w, TimeOut(t)))
  {
    QuietKeepsInv(w, Apply(cfg, w, TimeOut(t)), t);
  }

  lemma AmbientKeepsInv(cfg: Config, w: World, b: Ambient)
    requires Inv(w) && AmbientEnabled(w, b)
    ensures Inv(ApplyAmbient(cfg, w, b))
  {
    AmbientFootprint(cfg, w, b);
    var w' := ApplyAmbient(cfg, w, b);
    hide ApplyAmbient, AmbientEnabled;
    QuietKeepsInv(w, w', |w.tasks|);
  }

  lemma AmbientFootprint(cfg: Config, w: World, b: Ambient)
    requires AmbientEnabled(w, b)
    ensures
      var w' := ApplyAmbient(cfg, w, b);
      w'.tasks == w.tasks && w'.chans == w.chans && w'.flights == w.flights && w'.breaker == w.breaker
  {
    hide CacheValue, IsSafeProjectName, CacheCodec.Decode, CacheKeys.ImageKey, Before, CacheKeys.OtherFamily;
  }

  lemma ArriveKeepsInv(w: World, r: Request)
    requires Inv(w)
    ensures Inv(w.(tasks := w.tasks + [Task(r, LookingUp)]))
  {
    hide Key;
    QuietKeepsInv(w, w.(tasks := w.tasks + [Task(r, LookingUp)]), |w.tasks|);
  }

  lemma StepKeepsInv(cfg: Config, w: World, s: Step)
    requires Inv(w) && Enabled(cfg, w, s)
    ensures Inv(Apply(cfg, w, s))
  {
    hide Inv, ApplyJoin, ApplyFilter, ApplyPublish, ApplyLookUp, ApplyFetch, ApplyStore, ApplyStoreImage, ApplyAmbient,
        Return, Goto;
    match s
    case Join(t) => if Key(w.tasks[t].request) in w.flights { FollowKeepsInv(w, t); } else { LeadKeepsInv(w, t); }
    case Publish(t) => PublishKeepsInv(w, t);
    case Remove(t) => RemoveKeepsInv(cfg, w, t);
    case Filter(t, now) => FilterKeepsInv(cfg, w, t, now);
    case StopCollecting(t) => StopKeepsInv(cfg, w, t);
    case LookUp(t, now) => LookUpKeepsInv(cfg, w, t, now);
    case Fetch(t, outcome) => FetchKeepsInv(w, t, outcome);
    case Evict(t) => EvictKeepsInv(cfg, w, t);
    case Subscribe(t) => SubscribeKeepsInv(cfg, w, t);
    case Peek(t) => PeekKeepsInv(cfg, w, t);
    case Receive(t) => ReceiveKeepsInv(cfg, w, t);
    case SendersGone(t) => NeverWithoutSender(cfg, w, t);
    case TimeOut(t) => TimeOutKeepsInv(cfg, w, t);
    case Collect(t, _, _, _) => CollectKeepsInv(cfg, w, s);
    case Store(t, now) => StoreKeepsInv(cfg, w, t, now);
    case StoreImage(t) => StoreImageKeepsInv(w, t);
    case Cancel(t) => CancelKeepsInv(cfg, w, t);
    case Arrive(r) => ArriveKeepsInv(w, r);
    case Background(b) => AmbientKeepsInv(cfg, w, b);
  }

  lemma SubscribeKeepsInv(cfg: Config, w: World, t: nat)
    requires Inv(w) && Enabled(cfg, w, Subscribe(t))
    ensures Inv(Apply(cfg, w, Subscribe(t)))
  {
    assert TaskOk(w, t);
    QuietKeepsInv(w, Apply(cfg, w, Subscribe(t)), t);
  }

  lemma PeekKeepsInv(cfg: Config, w: World, t: nat)
    requires Inv(w) && Enabled(cfg, w, Peek(t))
    ensures Inv(Apply(cfg, w, Peek(t)))
  {
    assert TaskOk(w, t);
    assert ChanOk(w.chans[w.tasks[t].pc.chan]);
    QuietKeepsInv(w, Apply(cfg, w, Peek(t)), t);
  }

  lemma ReceiveKeepsInv(cfg: Config, w: World, t: nat)
    requires Inv(w) && Enabled(cfg, w, Receive(t))
    ensures Inv(Apply(cfg, w, Receive(t)))
    ensures w.chans[w.tasks[t].pc.chan].value.Some?
  {
    assert TaskOk(w, t);
    assert ChanOk(w.chans[w.tasks[t].pc.chan]);
    QuietKeepsInv(w, Apply(cfg, w, Receive(t)), t);
  }

  /** "Leader dropped channel" cannot happen: a waiting follower keeps a sender of its own. */
  lemma NeverWithoutSender(cfg: Config, w: World, t: nat)
    ensures !Enabled(cfg, w, SendersGone(t))
  {
    if t < |w.tasks| && w.tasks[t].pc.Waiting? {
      assert HasSender(w.tasks[t].pc, w.tasks[t].pc.chan);
    }
  }

  lemma CollectKeepsInv(cfg: Config, w: World, s: Step)
    requires Inv(w) && s.Collect? && Enabled(cfg, w, s)
    ensures Inv(Apply(cfg, w, s))
  {
    assert TaskOk(w, s.t);
    hide Matched;
    QuietKeepsInv(w, Apply(cfg, w, s), s.t);
  }

  lemma StoredKeepsInv(w: World, w': World, t: nat)
    requires Inv(w) && t < |w.tasks| && w.tasks[t].pc.Storing?
    requires w'.tasks == w.tasks[t := w.tasks[t].(pc := StoringImage(w.tasks[t].pc.reply, w.tasks[t].pc.via))]
    requires w'.flights == w.flights && w'.chans == w.chans
    ensures Inv(w')
  {
    hide Key;
    assert TaskOk(w, t);
    QuietKeepsInv(w, w', t);
  }

  lemma StoreKeepsInv(cfg: Config, w: World, t: nat, now: nat)
    requires Inv(w) && t < |w.tasks| && (w.tasks[t].pc.Storing? || w.tasks[t].pc.Refreshing?)
    ensures Inv(ApplyStore(cfg, w, t, now))
  {
    hide Inv, WithReply, Key;
    var w' := ApplyStore(cfg, w, t, now);
    if w.tasks[t].pc.Storing? && w.tasks[t].pc.reply.Ok? { StoredKeepsInv(w, w', t); }
    else { PlainMoveKeepsInv(w, w', t, w'.tasks[t].pc); }
  }

  lemma StoreImageKeepsInv(w: World, t: nat)
    requires Inv(w) && t < |w.tasks| && (w.tasks[t].pc.StoringImage? || w.tasks[t].pc.RefreshingImage?)
    ensures Inv(ApplyStoreImage(w, t))
  {
    hide Inv, WithImage, Key, CacheKeys.ImageKey;
    var w' := ApplyStoreImage(w, t);
    PlainMoveKeepsInv(w, w', t, w'.tasks[t].pc);
  }

  lemma CancelKeepsInv(cfg: Config, w: World, t: nat)
    requires Inv(w) && Enabled(cfg, w, Cancel(t))
    ensures Inv(Apply(cfg, w, Cancel(t)))
  {
    assert TaskOk(w, t);
    QuietKeepsInv(w, Apply(cfg, w, Cancel(t)), t);
  }

  lemma {:induction false} RunKeepsInv(cfg: Config, w: World, steps: seq<Step>)
    requires Inv(w) && Legal(cfg, w, steps)
    ensures Inv(Run(cfg, w, steps))
    decreases |steps|
  {
    if steps != [] {
      StepKeepsInv(cfg, w, steps[0]);
      RunKeepsInv(cfg, Apply(cfg, w, steps[0]), steps[1..]);
    }
  }

  // ----- exclusion -----

  lemma ReachableInv(cfg: Config, hot: map<string, string>, steps: seq<Step>)
    requires Legal(cfg, Init(hot), steps)
    ensures Inv(Run(cfg, Init(hot), steps))
  {
    RunKeepsInv(cfg, Init(hot), steps);
  }

  /** In every reachable state, cancellations included, two tasks never lead for the same key. */
  lemma AtMostOneLeader(cfg: Config, hot: map<string, string>, steps: seq<Step>, t: nat, u: nat)
    requires Legal(cfg, Init(hot), steps)
    requires
      var w := Run(cfg, Init(hot), steps);
      t < |w.tasks| && u < |w.tasks| && Leads(w.tasks[t].pc).Some? && Leads(w.tasks[u].pc).Some?
    ensures
      var w := Run(cfg, Init(hot), steps);
      Key(w.tasks[t].request) == Key(w.tasks[u].request) ==> t == u
  {
    ReachableInv(cfg, hot, steps);
    var w := Run(cfg, Init(hot), steps);
    hide Run, Legal, Key;
    assert TaskOk(w, t) && TaskOk(w, u);
  }

  // ----- the footprint of a step -----

  /** Which of the tasks a step moves. */
  function Actor(s: Step): Option<nat> {
    match s
    case LookUp(t, _) => Some(t)
    case Fetch(t, _) => Some(t)
    case Evict(t) => Some(t)
    case Join(t) => Some(t)
    case Subscribe(t) => Some(t)
    case Peek(t) => Some(t)
    case Receive(t) => Some(t)
    case SendersGone(t) => Some(t)
    case TimeOut(t) => Some(t)
    case Filter(t, _) => Some(t)
    case Collect(t, _, _, _) => Some(t)
    case StopCollecting(t) => Some(t)
    case Publish(t) => Some(t)
    case Remove(t) => Some(t)
    case Store(t, _) => Some(t)
    case StoreImage(t) => Some(t)
    case Cancel(t) => Some(t)
    case _ => None
  }

  /** How tasks come into being: as a request or as a background refresh. */
  predicate Newcomer(pc: Pc) {
    pc == LookingUp || pc == Filtering(Refresher, 0, [])
  }

  ghost predicate OnlyMoves(w: World, w': World, actor: Option<nat>) {
    && |w.tasks| <= |w'.tasks| && |w.chans| <= |w'.chans|
    && (forall u :: |w.tasks| <= u < |w'.tasks| ==> Newcomer(w'.tasks[u].pc))
    && (forall u :: 0 <= u < |w.tasks| && Some(u) != actor ==> w'.tasks[u] == w.tasks[u])
    && (forall c :: 0 <= c < |w.chans| ==> w'.chans[c] == w.chans[c] || LedByActor(w, actor, c))
    && (forall c :: 0 <= c < |w.chans| ==> w'.chans[c].key == w.chans[c].key && w'.chans[c].leader == w.chans[c].leader)
  }

  ghost predicate LedByActor(w: World, actor: Option<nat>, c: nat) {
    actor.Some? && actor.value < |w.tasks| && Leads(w.tasks[actor.value].pc) == Some(c)
  }

  lemma Footprint(cfg: Config, w: World, s: Step)
    requires Enabled(cfg, w, s)
    ensures OnlyMoves(w, Apply(cfg, w, s), Actor(s))
    ensures !s.Join? && !s.Remove? ==> Apply(cfg, w, s).flights == w.flights
  {
    hide ApplyJoin, ApplyFilter, ApplyPublish, ApplyLookUp, ApplyFetch, ApplyStore, ApplyStoreImage, Return, Goto;
    match s
    case LookUp(t, now) => LookUpFootprint(cfg, w, t, now);
    case Filter(t, now) => FilterFootprint(cfg, w, t, now);
    case Store(t, now) => StoreFootprint(cfg, w, t, now);
    case StoreImage(t) => StoreImageFootprint(w, t);
    case Collect(_, _, _, _) => CollectFootprint(cfg, w, s);
    case StopCollecting(t) => StopFootprint(cfg, w, t);
    case Publish(t) => PublishFootprint(w, t);
    case Join(t) => JoinFootprint(w, t);
    case Background(b) => AmbientFootprint(cfg, w, b); hide ApplyAmbient;
    case _ => SimpleFootprint(cfg, w, s);
  }

  lemma SimpleFootprint(cfg: Config, w: World, s: Step)
    requires s.Arrive? || s.Fetch? || s.Evict? || s.Subscribe? || s.Peek? || s.Receive? || s.SendersGone? || s.TimeOut?
             || s.Remove? || s.Cancel?
    requires Enabled(cfg, w, s)
    ensures OnlyMoves(w, Apply(cfg, w, s), Actor(s))
    ensures !s.Remove? ==> Apply(cfg, w, s).flights == w.flights
  {
    hide Key, SomeSender, ApplyFetch;
    if s.Fetch? { FetchFootprint(w, s.t, s.outcome); }
  }

  lemma FetchFootprint(w: World, t: nat, outcome: Reply)
    requires t < |w.tasks| && w.tasks[t].pc.Fetching?
    ensures OnlyMoves(w, ApplyFetch(w, t, outcome), Some(t)) && ApplyFetch(w, t, outcome).flights == w.flights
  {
    hide FanOut.Is200;
  }

  lemma StopFootprint(cfg: Config, w: World, t: nat)
    requires Enabled(cfg, w, StopCollecting(t))
    ensures OnlyMoves(w, Apply(cfg, w, StopCollecting(t)), Some(t))
        && Apply(cfg, w, StopCollecting(t)).flights == w.flights
  {
    hide LookupReply, MayStop, Key;
  }

  lemma PublishFootprint(w: World, t: nat)
    requires t < |w.tasks| && w.tasks[t].pc.Publishing? && w.tasks[t].pc.chan < |w.chans|
    ensures OnlyMoves(w, ApplyPublish(w, t), Some(t)) && ApplyPublish(w, t).flights == w.flights
  {
    hide SomeReceiver, Key;
  }

  lemma JoinFootprint(w: World, t: nat)
    requires t < |w.tasks|
    ensures OnlyMoves(w, ApplyJoin(w, t), Some(t))
  {
    hide Key;
  }

  lemma LookUpFootprint(cfg: Config, w: World, t: nat, now: nat)
    requires t < |w.tasks| && w.tasks[t].pc.LookingUp?
    ensures OnlyMoves(w, ApplyLookUp(cfg, w, t, now), Some(t)) && ApplyLookUp(cfg, w, t, now).flights == w.flights
  {
    hide AfterLookUp;
  }

  lemma FilterFootprint(cfg: Config, w: World, t: nat, now: nat)
    requires t < |w.tasks| && w.tasks[t].pc.Filtering? && LeadsChan(w, t)
    ensures OnlyMoves(w, ApplyFilter(cfg, w, t, now), Some(t)) && ApplyFilter(cfg, w, t, now).flights == w.flights
  {
    var role := w.tasks[t].pc.role;
    ReturnFootprint(w, t, role, [], [], Err(FanOut.NO_PROJECTS));
    ReturnFootprint(w, t, role, [], [], Err(FanOut.NONE_AVAILABLE));
    hide Breaker.Replay, Breaker.Admits, Limit, Return;
  }

  lemma ReturnFootprint(w: World, t: nat, role: Role, consulted: seq<string>, arrivals: seq<Arrival>, reply: Reply)
    requires t < |w.tasks| && (role.Leader? ==> role.chan < |w.chans|)
    requires (w.tasks[t].pc.Filtering? || w.tasks[t].pc.Collecting?) && w.tasks[t].pc.role == role
    ensures OnlyMoves(w, Return(w, t, role, consulted, arrivals, reply), Some(t))
    ensures Return(w, t, role, consulted, arrivals, reply).flights == w.flights
  {
  }

  lemma StoreFootprint(cfg: Config, w: World, t: nat, now: nat)
    requires t < |w.tasks| && (w.tasks[t].pc.Storing? || w.tasks[t].pc.Refreshing?)
    ensures OnlyMoves(w, ApplyStore(cfg, w, t, now), Some(t)) && ApplyStore(cfg, w, t, now).flights == w.flights
  {
    hide WithReply, Key;
  }

  lemma StoreImageFootprint(w: World, t: nat)
    requires t < |w.tasks|
    ensures OnlyMoves(w, ApplyStoreImage(w, t), Some(t)) && ApplyStoreImage(w, t).flights == w.flights
  {
    hide WithImage, Key, CacheKeys.ImageKey;
  }

  lemma CollectFootprint(cfg: Config, w: World, s: Step)
    requires s.Collect? && Enabled(cfg, w, s)
    ensures OnlyMoves(w, Apply(cfg, w, s), Some(s.t)) && Apply(cfg, w, s).flights == w.flights
  {
    hide Matched, Key, BreakerEvents;
  }

  /** The steps that may write to the cache. */
  predicate Writes(s: Step) {
    s.Evict? || s.Store? || s.StoreImage? || s.Background?
  }

  ghost predicate SameStores(w: World, w': World) {
    w'.cache == w.cache && w'.breaker == w.breaker && SameWarmth(w, w')
  }

  ghost predicate SameWarmth(w: World, w': World) {
    w'.hot == w.hot && w'.gathered == w.gathered && w'.warming == w.warming
  }

  lemma OnlyWritersWrite(cfg: Config, w: World, s: Step)
    requires Enabled(cfg, w, s)
    ensures !Writes(s) ==> Apply(cfg, w, s).cache == w.cache
    ensures !s.Filter? && !s.Collect? ==> Apply(cfg, w, s).breaker == w.breaker
    ensures !s.Background? ==> SameWarmth(w, Apply(cfg, w, s))
  {
    hide ApplyJoin, ApplyFilter, ApplyPublish, ApplyLookUp, ApplyFetch, ApplyStore, ApplyStoreImage, Return, Goto,
        SameWarmth;
    match s
    case LookUp(t, now) => LookUpStores(cfg, w, t, now);
    case Filter(t, now) => FilterStores(cfg, w, t, now);
    case Store(t, now) => StoreStores(cfg, w, t, now);
    case Join(t) => JoinStores(w, t);
    case Publish(t) => PublishStores(w, t);
    case Fetch(t, outcome) => FetchStores(w, t, outcome);
    case StopCollecting(t) =>
      var pc := w.tasks[t].pc;
      ReturnStores(w, t, pc.role, pc.consulted, pc.arrivals, LookupReply(w.tasks[t].request, pc.arrivals));
      hide LookupReply;
    case StoreImage(t) => StoreImageStores(w, t);
    case Collect(_, _, _, _) => CollectStores(cfg, w, s);
    case Background(b) => AmbientFootprint(cfg, w, b); hide ApplyAmbient;
    case _ => SimpleStores(cfg, w, s);
  }

  lemma StoreImageStores(w: World, t: nat)
    requires t < |w.tasks|
    ensures ApplyStoreImage(w, t).breaker == w.breaker && SameWarmth(w, ApplyStoreImage(w, t))
  {
    hide WithImage, CacheKeys.ImageKey;
  }

  lemma CollectStores(cfg: Config, w: World, s: Step)
    requires s.Collect? && Enabled(cfg, w, s)
    ensures Apply(cfg, w, s).cache == w.cache && SameWarmth(w, Apply(cfg, w, s))
  {
    hide Matched, BreakerEvents;
  }

  lemma SimpleStores(cfg: Config, w: World, s: Step)
    requires s.Arrive? || s.Evict? || s.Subscribe? || s.Peek? || s.Receive? || s.SendersGone? || s.TimeOut? || s.Remove?
        || s.Cancel?
    requires Enabled(cfg, w, s)
    ensures !s.Evict? ==> Apply(cfg, w, s).cache == w.cache
    ensures Apply(cfg, w, s).breaker == w.breaker && SameWarmth(w, Apply(cfg, w, s))
  {
    hide Key, SomeSender;
  }

  lemma LookUpStores(cfg: Config, w: World, t: nat, now: nat)
    requires t < |w.tasks|
    ensures SameStores(w, ApplyLookUp(cfg, w, t, now))
  {
    hide AfterLookUp;
  }

  lemma ReturnStores(w: World, t: nat, role: Role, consulted: seq<string>, arrivals: seq<Arrival>, reply: Reply)
    requires t < |w.tasks| && (role.Leader? ==> role.chan < |w.chans|)
    ensures SameStores(w, Return(w, t, role, consulted, arrivals, reply))
  {
  }

  lemma FilterStores(cfg: Config, w: World, t: nat, now: nat)
    requires t < |w.tasks| && w.tasks[t].pc.Filtering? && LeadsChan(w, t)
    ensures ApplyFilter(cfg, w, t, now).cache == w.cache && SameWarmth(w, ApplyFilter(cfg, w, t, now))
  {
    var role := w.tasks[t].pc.role;
    ReturnStores(w, t, role, [], [], Err(FanOut.NO_PROJECTS));
    ReturnStores(w, t, role, [], [], Err(FanOut.NONE_AVAILABLE));
    hide Breaker.Replay, Breaker.Admits, Limit, Return;
  }

  lemma StoreStores(cfg: Config, w: World, t: nat, now: nat)
    requires t < |w.tasks|
    ensures ApplyStore(cfg, w, t, now).breaker == w.breaker && SameWarmth(w, ApplyStore(cfg, w, t, now))
  {
    hide WithReply, AfterStore, Key;
  }

  lemma JoinStores(w: World, t: nat)
    requires t < |w.tasks|
    ensures SameStores(w, ApplyJoin(w, t))
  {
    hide Key;
  }

  lemma PublishStores(w: World, t: nat)
    requires t < |w.tasks| && w.tasks[t].pc.Publishing? && w.tasks[t].pc.chan < |w.chans|
    ensures SameStores(w, ApplyPublish(w, t))
  {
    hide SomeReceiver;
  }

  lemma FetchStores(w: World, t: nat, outcome: Reply)
    requires t < |w.tasks| && w.tasks[t].pc.Fetching?
    ensures SameStores(w, ApplyFetch(w, t, outcome))
  {
    hide FanOut.Is200;
  }

  // ----- a cancelled leader -----

  /** A flight without a leader: nobody will publish for this key or take it out of the map. */
  ghost predicate Wedged(w: World, key: string, c: nat) {
    key in w.flights && w.flights[key] == c && Stranded(w, c)
  }

  lemma StepKeepsWedge(cfg: Config, w: World, s: Step, key: string, c: nat)
    requires Inv(w) && Enabled(cfg, w, s) && Wedged(w, key, c)
    ensures Wedged(Apply(cfg, w, s), key, c)
  {
    var w' := Apply(cfg, w, s);
    var l := w.chans[c].leader;
    Footprint(cfg, w, s);
    NoStepAfterCancel(cfg, w, s, l);
    LedByItsLeader(w, Actor(s), c);
    assert w'.chans[c] == w.chans[c] && w'.tasks[l] == w.tasks[l];
    hide Apply, Enabled;
    WedgedKeyStays(cfg, w, s, key, c);
  }

  lemma LedByItsLeader(w: World, actor: Option<nat>, c: nat)
    requires Inv(w) && c < |w.chans|
    ensures LedByActor(w, actor, c) ==> actor == Some(w.chans[c].leader)
  {
    if LedByActor(w, actor, c) {
      assert TaskOk(w, actor.value);
    }
  }

  lemma NoStepAfterCancel(cfg: Config, w: World, s: Step, t: nat)
    requires Enabled(cfg, w, s) && t < |w.tasks| && w.tasks[t].pc.Cancelled?
    ensures Actor(s) != Some(t)
  {
  }

  lemma WedgedKeyStays(cfg: Config, w: World, s: Step, key: string, c: nat)
    requires Inv(w) && Enabled(cfg, w, s) && Wedged(w, key, c)
    ensures key in Apply(cfg, w, s).flights && Apply(cfg, w, s).flights[key] == c
  {
    hide Inv, Stranded;
    if s.Remove? {
      RemoveKeepsWedge(cfg, w, s.t, key, c);
    } else if s.Join? {
      JoinKeepsWedge(w, s.t, key, c);
      hide ApplyJoin;
    } else {
      Footprint(cfg, w, s);
      hide Apply;
    }
  }

  lemma RemoveKeepsWedge(cfg: Config, w: World, t: nat, key: string, c: nat)
    requires Inv(w) && Enabled(cfg, w, Remove(t)) && Wedged(w, key, c)
    ensures var flights := Apply(cfg, w, Remove(t)).flights; key in flights && flights[key] == c
  {
    assert TaskOk(w, t);
    hide Key, ChanOk, FlightOk, Inv;
  }

  lemma JoinKeepsWedge(w: World, t: nat, key: string, c: nat)
    requires t < |w.tasks| && Wedged(w, key, c)
    ensures key in ApplyJoin(w, t).flights && ApplyJoin(w, t).flights[key] == c
  {
    hide Key, Stranded;
  }

  /** A leader cancelled while waiting for the projects wedges its key for good: in every later state the
      flight is still in the map, without a reply, and no task for that key leads. */
  lemma {:induction false} CancelledLeaderWedgesKey(cfg: Config, w: World, steps: seq<Step>, key: string, c: nat)
    requires Inv(w) && Legal(cfg, w, steps) && Wedged(w, key, c)
    ensures
      var w' := Run(cfg, w, steps);
      && Wedged(w', key, c)
      && forall t :: 0 <= t < |w'.tasks| && Key(w'.tasks[t].request) == key ==> Leads(w'.tasks[t].pc).None?
    decreases |steps|
  {
    if steps == [] {
      forall t | 0 <= t < |w.tasks| && Key(w.tasks[t].request) == key
        ensures Leads(w.tasks[t].pc).None?
      {
        assert TaskOk(w, t);
      }
    } else {
      StepKeepsInv(cfg, w, steps[0]);
      StepKeepsWedge(cfg, w, steps[0], key, c);
      CancelledLeaderWedgesKey(cfg, Apply(cfg, w, steps[0]), steps[1..], key, c);
    }
  }

  /** And cancelling a leader there is what wedges it. */
  lemma CancellingALeaderWedges(cfg: Config, w: World, t: nat)
    requires Inv(w) && Enabled(cfg, w, Cancel(t)) && Leads(w.tasks[t].pc).Some?
    ensures Wedged(Apply(cfg, w, Cancel(t)), Key(w.tasks[t].request), Leads(w.tasks[t].pc).value)
  {
    assert TaskOk(w, t);
  }

  // ----- which flights are led -----

  ghost predicate LedBy(w: World, key: string, t: nat) {
    t < |w.tasks| && Key(w.tasks[t].request) == key && Leads(w.tasks[t].pc).Some?
    && key in w.flights && Leads(w.tasks[t].pc) == Some(w.flights[key])
  }

  /** A task is cancelled while it leads for `key`. */
  ghost predicate DropsLeader(w: World, s: Step, key: string) {
    s.Cancel? && s.t < |w.tasks| && Leads(w.tasks[s.t].pc).Some? && Key(w.tasks[s.t].request) == key
  }

  /** Some step of the run cancels a leader for `key`. */
  ghost predicate LeaderDropped(cfg: Config, w: World, steps: seq<Step>, key: string)
    requires Legal(cfg, w, steps)
    decreases |steps|
  {
    steps != [] && (DropsLeader(w, steps[0], key) || LeaderDropped(cfg, Apply(cfg, w, steps[0]), steps[1..], key))
  }

  ghost predicate StrandedKey(w: World, key: string) {
    key in w.flights && Stranded(w, w.flights[key])
  }

  /** Only being cancelled turns a leader into a cancelled task. */
  lemma LeaderStaysOn(cfg: Config, w: World, s: Step, t: nat)
    requires Enabled(cfg, w, s) && t < |w.tasks| && Leads(w.tasks[t].pc).Some? && s != Cancel(t)
    ensures t < |Apply(cfg, w, s).tasks| && !Apply(cfg, w, s).tasks[t].pc.Cancelled?
  {
    Footprint(cfg, w, s);
    if Actor(s) == Some(t) {
      OwnStepStaysOn(cfg, w, s, t);
    }
    hide Apply, Enabled;
  }

  lemma OwnStepStaysOn(cfg: Config, w: World, s: Step, t: nat)
    requires Enabled(cfg, w, s) && Actor(s) == Some(t) && t < |w.tasks| && Leads(w.tasks[t].pc).Some? && s != Cancel(t)
    ensures t < |Apply(cfg, w, s).tasks| && !Apply(cfg, w, s).tasks[t].pc.Cancelled?
  {
    hide Return, ApplyFilter, ApplyPublish, BreakerEvents, Matched, LookupReply, MayStop, Key;
    match s
    case Filter(_, now) => FilterStaysOn(cfg, w, t, now);
    case StopCollecting(_) =>
      var pc := w.tasks[t].pc;
      ReturnStaysOn(w, t, pc.role, pc.consulted, pc.arrivals, LookupReply(w.tasks[t].request, pc.arrivals));
    case Publish(_) => PublishStaysOn(w, t);
    case _ =>
  }

  lemma ReturnStaysOn(w: World, t: nat, role: Role, consulted: seq<string>, arrivals: seq<Arrival>, reply: Reply)
    requires t < |w.tasks| && (role.Leader? ==> role.chan < |w.chans|)
    ensures
      var w' := Return(w, t, role, consulted, arrivals, reply);
      |w'.tasks| == |w.tasks| && !w'.tasks[t].pc.Cancelled?
  {
  }

  lemma FilterStaysOn(cfg: Config, w: World, t: nat, now: nat)
    requires t < |w.tasks| && w.tasks[t].pc.Filtering? && LeadsChan(w, t)
    ensures |ApplyFilter(cfg, w, t, now).tasks| == |w.tasks| && !ApplyFilter(cfg, w, t, now).tasks[t].pc.Cancelled?
  {
    var role := w.tasks[t].pc.role;
    ReturnStaysOn(w, t, role, [], [], Err(FanOut.NO_PROJECTS));
    ReturnStaysOn(w, t, role, [], [], Err(FanOut.NONE_AVAILABLE));
    hide Breaker.Replay, Breaker.Admits, Limit, Return;
  }

  lemma PublishStaysOn(w: World, t: nat)
    requires t < |w.tasks| && w.tasks[t].pc.Publishing? && w.tasks[t].pc.chan < |w.chans|
    ensures |ApplyPublish(w, t).tasks| == |w.tasks| && !ApplyPublish(w, t).tasks[t].pc.Cancelled?
  {
    hide SomeReceiver;
  }

  /** A key becomes stranded by a leader being dropped and in no other way. */
  lemma StepStrands(cfg: Config, w: World, s: Step, key: string)
    requires Inv(w) && Enabled(cfg, w, s)
    ensures StrandedKey(Apply(cfg, w, s), key) <==> StrandedKey(w, key) || DropsLeader(w, s, key)
  {
    var w' := Apply(cfg, w, s);
    if StrandedKey(w, key) {
      StepKeepsWedge(cfg, w, s, key, w.flights[key]);
    } else if DropsLeader(w, s, key) {
      CancellingALeaderWedges(cfg, w, s.t);
    } else {
      NothingElseStrands(cfg, w, s, key);
    }
    hide Apply, Enabled, Stranded, DropsLeader;
  }

  lemma NothingElseStrands(cfg: Config, w: World, s: Step, key: string)
    requires Inv(w) && Enabled(cfg, w, s) && !StrandedKey(w, key) && !DropsLeader(w, s, key)
    ensures !StrandedKey(Apply(cfg, w, s), key)
  {
    var w' := Apply(cfg, w, s);
    Footprint(cfg, w, s);
    FlightComesFrom(cfg, w, s, key);
    hide Apply, Enabled;
    if key in w'.flights && key in w.flights && w'.flights[key] == w.flights[key] {
      var c := w.flights[key];
      assert FlightOk(w, key);
      var l := w.chans[c].leader;
      assert TaskOk(w, l);
      LeaderStaysOn(cfg, w, s, l);
    }
  }

  /** A flight found after a step was there before, or is the new flight of a task that leads it. */
  lemma FlightComesFrom(cfg: Config, w: World, s: Step, key: string)
    requires Inv(w) && Enabled(cfg, w, s)
    ensures
      var w' := Apply(cfg, w, s);
      key in w'.flights ==> (key in w.flights && w'.flights[key] == w.flights[key]) || !Stranded(w', w'.flights[key])
  {
    if s.Join? {
      hide Key;
    } else if s.Remove? {
      hide Key;
    } else {
      Footprint(cfg, w, s);
      hide Apply, Enabled, Stranded;
    }
  }

  lemma {:induction false} RunStrands(cfg: Config, w: World, steps: seq<Step>, key: string)
    requires Inv(w) && Legal(cfg, w, steps)
    ensures StrandedKey(Run(cfg, w, steps), key) <==> StrandedKey(w, key) || LeaderDropped(cfg, w, steps, key)
    decreases |steps|
  {
    if steps != [] {
      StepKeepsInv(cfg, w, steps[0]);
      StepStrands(cfg, w, steps[0], key);
      hide Apply, Enabled, Inv, StrandedKey, DropsLeader;
      RunStrands(cfg, Apply(cfg, w, steps[0]), steps[1..], key);
    }
  }

  /** In a run that cancels no leader for a key, the key is in the map exactly while a task between insert and remove
      leads for it; that task is the only one, and the stored flight is its own. */
  lemma FlightsAreLed(cfg: Config, hot: map<string, string>, steps: seq<Step>, key: string)
    requires Legal(cfg, Init(hot), steps) && !LeaderDropped(cfg, Init(hot), steps, key)
    ensures
      var w := Run(cfg, Init(hot), steps);
      && (key in w.flights <==> exists t :: LedBy(w, key, t))
      && (forall t, u :: LedBy(w, key, t) && LedBy(w, key, u) ==> t == u)
      && (forall t :: 0 <= t < |w.tasks| && Key(w.tasks[t].request) == key && Leads(w.tasks[t].pc).Some? ==>
            LedBy(w, key, t))
  {
    ReachableInv(cfg, hot, steps);
    RunStrands(cfg, Init(hot), steps, key);
    var w := Run(cfg, Init(hot), steps);
    hide Run, Legal, LeaderDropped, Key;
    if key in w.flights {
      assert FlightOk(w, key);
      assert TaskOk(w, w.chans[w.flights[key]].leader);
      assert LedBy(w, key, w.chans[w.flights[key]].leader);
    }
    forall t | 0 <= t < |w.tasks| && Key(w.tasks[t].request) == key && Leads(w.tasks[t].pc).Some?
      ensures LedBy(w, key, t) && w.chans[w.flights[key]].leader == t
    {
      assert TaskOk(w, t);
    }
  }

  predicate Quiescent(w: World) {
    forall t :: 0 <= t < |w.tasks| ==> w.tasks[t].pc.Finished? || w.tasks[t].pc.Ended? || w.tasks[t].pc.Cancelled?
  }

  /** When every task is done, a key is left in the map exactly if the run cancelled a leader for it; so the map is
      empty exactly if it cancelled none. */
  lemma LeftoversAreDropped(cfg: Config, hot: map<string, string>, steps: seq<Step>)
    requires Legal(cfg, Init(hot), steps) && Quiescent(Run(cfg, Init(hot), steps))
    ensures
      var w := Run(cfg, Init(hot), steps);
      && (forall key :: key in w.flights <==> LeaderDropped(cfg, Init(hot), steps, key))
      && (w.flights == map[] <==> forall key :: !LeaderDropped(cfg, Init(hot), steps, key))
  {
    ReachableInv(cfg, hot, steps);
    var w := Run(cfg, Init(hot), steps);
    forall key ensures key in w.flights <==> LeaderDropped(cfg, Init(hot), steps, key) {
      RunStrands(cfg, Init(hot), steps, key);
      if key in w.flights { assert FlightOk(w, key); }
      hide Run, Legal, LeaderDropped;
    }
    hide Run, Legal, LeaderDropped, Inv;
    assert w.flights == map[] <==> forall key :: key !in w.flights;
  }

  // ----- delivery -----

  /** No lost wakeup: a follower that subscribed before the publish can receive as soon as the reply is sent,
      and what it receives is the leader's reply. Before the send nothing can be received. Whatever reply a
      task carries to the cache is its flight's reply under its own key, or its own timeout, so "leader
      dropped channel" and "leader sent empty result" never occur. */
  lemma FollowerDelivery(cfg: Config, hot: map<string, string>, steps: seq<Step>, t: nat)
    requires Legal(cfg, Init(hot), steps) && t < |Run(cfg, Init(hot), steps).tasks|
    ensures
      var w := Run(cfg, Init(hot), steps);
      match w.tasks[t].pc
      case Waiting(c, early, _) =>
        && c < |w.chans| && !Enabled(cfg, w, SendersGone(t))
        && (Enabled(cfg, w, Receive(t)) <==> w.chans[c].sent && w.chans[c].heard)
        && (early && w.chans[c].sent ==> Enabled(cfg, w, Receive(t)))
        && (Enabled(cfg, w, Receive(t)) ==>
              w.chans[c].reply.Some? &&
              Apply(cfg, w, Receive(t)).tasks[t].pc == Storing(w.chans[c].reply.value, Some(c)))
      case Storing(reply, via) => ViaOk(w, t, reply, via)
      case StoringImage(reply, via) => ViaOk(w, t, reply, via)
      case _ => true
  {
    ReachableInv(cfg, hot, steps);
    var w := Run(cfg, Init(hot), steps);
    hide Run, Legal, Key;
    assert TaskOk(w, t);
    if w.tasks[t].pc.Waiting? {
      NeverWithoutSender(cfg, w, t);
      assert ChanOk(w.chans[w.tasks[t].pc.chan]);
    }
  }

  /** `send` reaches late subscribers exactly if some receiver was alive at that moment. */
  lemma SendIsHeardIff(cfg: Config, w: World, t: nat)
    requires Inv(w) && Enabled(cfg, w, Publish(t))
    ensures
      var c := w.tasks[t].pc.chan;
      var after := Apply(cfg, w, Publish(t)).chans[c];
      && (after.heard <==> SomeReceiver(w.tasks, c))
      && after.value == (if SomeReceiver(w.tasks, c) then Some(w.tasks[t].pc.reply) else None)
  {
    assert TaskOk(w, t);
    assert ChanOk(w.chans[w.tasks[t].pc.chan]);
    hide SomeReceiver;
  }

  ghost predicate Sent(w: World, c: nat, heard: bool, reply: Reply) {
    c < |w.chans| && w.chans[c].sent && w.chans[c].heard == heard && w.chans[c].reply == Some(reply)
  }

  /** The stations of a follower that took the sender before the flight was removed and subscribes only
      after the reply was sent. */
  predicate LateStation(pc: Pc, c: nat, heard: bool, reply: Reply) {
    match pc
    case Subscribing(d) => d == c
    case Peeking(d, early) => d == c && !early
    case Waiting(d, early, seen) => !heard && d == c && !early && seen == 0
    case Storing(r, via) => if heard then r == reply && via == Some(c) else r == Err(TIMEOUT_TEXT)
    case StoringImage(r, via) => heard && r == reply && r.Ok? && via == Some(c)
    case Finished(r) => r == if heard then reply else Err(TIMEOUT_TEXT)
    case Cancelled => true
    case _ => false
  }

  lemma SentStays(cfg: Config, w: World, s: Step, c: nat)
    requires Inv(w) && Enabled(cfg, w, s) && c < |w.chans| && w.chans[c].sent
    ensures c < |Apply(cfg, w, s).chans| && Apply(cfg, w, s).chans[c] == w.chans[c]
  {
    Footprint(cfg, w, s);
    if Actor(s).Some? && LedByActor(w, Actor(s), c) {
      assert TaskOk(w, Actor(s).value);
    }
  }

  lemma LateStore(cfg: Config, w: World, t: nat, now: nat, c: nat, heard: bool, reply: Reply)
    requires t < |w.tasks| && w.tasks[t].pc.Storing? && LateStation(w.tasks[t].pc, c, heard, reply)
    ensures LateStation(ApplyStore(cfg, w, t, now).tasks[t].pc, c, heard, reply)
  {
    hide WithReply, Key;
  }

  lemma LateStoreImage(w: World, t: nat, c: nat, heard: bool, reply: Reply)
    requires t < |w.tasks| && w.tasks[t].pc.StoringImage? && LateStation(w.tasks[t].pc, c, heard, reply)
    ensures LateStation(ApplyStoreImage(w, t).tasks[t].pc, c, heard, reply)
  {
    hide WithImage, CacheKeys.ImageKey;
  }

  lemma LateMove(cfg: Config, w: World, s: Step, t: nat, c: nat, heard: bool, reply: Reply)
    requires t < |w.tasks| && TaskOk(w, t) && Sent(w, c, heard, reply) && ChanOk(w.chans[c]) && Enabled(cfg, w, s)
    requires LateStation(w.tasks[t].pc, c, heard, reply) && Actor(s) == Some(t)
    ensures t < |Apply(cfg, w, s).tasks| && LateStation(Apply(cfg, w, s).tasks[t].pc, c, heard, reply)
  {
    hide ApplyJoin, ApplyFilter, ApplyPublish, ApplyLookUp, ApplyFetch, ApplyStore, ApplyStoreImage, Return, Key,
        ChanOfTask, LeaderOk, ViaOk;
    match s
    case SendersGone(_) => NeverWithoutSender(cfg, w, t);
    case Store(_, now) => Footprint(cfg, w, s); LateStore(cfg, w, t, now, c, heard, reply);
    case StoreImage(_) => Footprint(cfg, w, s); LateStoreImage(w, t, c, heard, reply);
    case _ =>
  }

  lemma LateStep(cfg: Config, w: World, s: Step, t: nat, c: nat, heard: bool, reply: Reply)
    requires Inv(w) && Enabled(cfg, w, s) && Sent(w, c, heard, reply)
    requires t < |w.tasks| && LateStation(w.tasks[t].pc, c, heard, reply)
    ensures t < |Apply(cfg, w, s).tasks| && LateStation(Apply(cfg, w, s).tasks[t].pc, c, heard, reply)
  {
    assert TaskOk(w, t);
    assert ChanOk(w.chans[c]);
    hide Inv, TaskOk, ChanOk, Apply, Enabled;
    if Actor(s) == Some(t) { LateMove(cfg, w, s, t, c, heard, reply); }
    else { Footprint(cfg, w, s); }
  }

  /** The comment that late subscribers always see the result holds exactly when the send was heard: then a
      late follower ends with the leader's reply, never with a timeout; otherwise it can only time out. */
  lemma {:induction false} LateFollower(cfg: Config, w: World, steps: seq<Step>, t: nat, c: nat, heard: bool,
      reply: Reply)
    requires Inv(w) && Legal(cfg, w, steps) && Sent(w, c, heard, reply)
    requires t < |w.tasks| && LateStation(w.tasks[t].pc, c, heard, reply)
    ensures
      var w' := Run(cfg, w, steps);
      && Sent(w', c, heard, reply)
      && t < |w'.tasks| && LateStation(w'.tasks[t].pc, c, heard, reply)
    decreases |steps|
  {
    if steps != [] {
      StepKeepsInv(cfg, w, steps[0]);
      SentStays(cfg, w, steps[0], c);
      LateStep(cfg, w, steps[0], t, c, heard, reply);
      LateFollower(cfg, Apply(cfg, w, steps[0]), steps[1..], t, c, heard, reply);
    }
  }
}
