/**
 From the server's handlers to the client's accessors through every layer: what
 is queued is framed, drained by the writer, cut anywhere by the socket, carved
 and folded, and arrives as the server's own view of the room.
 */
module EndToEnd {
  import opened Protocol
  import opened Seqs
  import opened Codec
  import opened Framing
  import opened Readers
  import opened Replica
  import R = Rooms
  import Replication
  import Laws
  import H = History
  import O = Outbound
  import S = System
  import M = Mesh
  import opened ClientImpl
  import ClientRuns
  import opened Sizes

  // ------------------------------------------------- what a run has queued

  /**
   Everything ever queued to a live connection is a well-formed stream that
   builds its view of the server from nothing.
   */
  lemma {:induction false} QueuedLeads(cfg: R.Config, steps: seq<R.Step>, c: Id)
    requires cfg.ice.IceServers? && c in H.After(R.Init(cfg), steps).conns
    ensures Leads(NEW_CACHE, H.Queued(R.Init(cfg), steps, c), Replication.View(H.After(R.Init(cfg), steps), c))
  {
    hide R.Perform, R.Inv, Leads, Replication.View;
    var s := R.Init(cfg);
    Replication.InitInv(cfg);
    if steps != [] {
      var before, last := steps[..|steps| - 1], steps[|steps| - 1];
      var t := H.After(s, before);
      H.AfterInv(s, before);
      if !R.Enabled(t, last) {
        QueuedLeads(cfg, before, c);
        assert H.Queued(s, before, c) + [] == H.Queued(s, before, c);
      } else if last.Accept? && c == t.nextId {
        H.NothingBeforeAccept(s, before, c);
        Newcomer(t);
      } else {
        Replication.NextIdGrows(t, last, c);
        QueuedLeads(cfg, before, c);
        StepLeads(t, last, c);
        LeadsConcat(NEW_CACHE, H.Queued(s, before, c), Replication.View(t, c),
                    R.For(R.Perform(t, last).sends, c), Replication.View(R.Perform(t, last).core, c));
      }
    }
  }

  lemma StepLeads(t: R.Core, step: R.Step, c: Id)
    requires R.Inv(t) && R.Enabled(t, step) && c in t.conns && c in R.Perform(t, step).core.conns
    ensures Leads(Replication.View(t, c), R.For(R.Perform(t, step).sends, c), Replication.View(R.Perform(t, step).core, c))
  {
    hide R.Perform, R.Inv;
    Replication.StepGood(t, step);
    assert Replication.TracksFor(t, R.Perform(t, step), c);
  }

  lemma Newcomer(t: R.Core)
    requires R.Inv(t) && R.Enabled(t, R.Accept)
    ensures var e := R.Perform(t, R.Accept);
            e.sends == [] && t.nextId in e.core.conns && Leads(NEW_CACHE, [], Replication.View(e.core, t.nextId))
  {
    assert R.RoomAt(t, []);
  }

  // ------------------------------------------------------ sizes over runs

  /** A message some body within the cap decodes to: what ReadLoop can hand over. */
  ghost predicate Readable(m: Msg) {
    exists body :: |body| <= MAX_REASSEMBLED && Decode(body).Ok? && Decode(body).value == m
  }

  /** ReadLoop can hand over exactly the messages whose own encoding is within the cap. */
  lemma ReadableIffSendable(m: Msg)
    ensures Readable(m) <==> Sendable(m)
  {
    hide Encode, Decode;
    if Readable(m) {
      var body :| |body| <= MAX_REASSEMBLED && Decode(body).Ok? && Decode(body).value == m;
      DecodedSize(body);
    }
    if Sendable(m) {
      SendableRepresentable(m);
      RoundTripExactly(m);
    }
  }

  ghost predicate AllReadable(steps: seq<R.Step>) {
    forall i :: 0 <= i < |steps| && steps[i].Receive? ==> Readable(steps[i].msg)
  }

  ghost predicate AllSendable(ms: seq<Msg>) {
    forall i :: 0 <= i < |ms| ==> Sendable(ms[i])
  }

  lemma {:induction false} SendableFor(sends: seq<R.Send>, c: Id)
    requires SmallSends(sends)
    ensures AllSendable(R.For(sends, c))
  {
    hide Sendable, Small;
    if sends != [] {
      SmallSendable(sends[0].msg);
      SendableFor(sends[1..], c);
    }
  }

  lemma SmallSendable(m: Msg)
    ensures Small(m) <==> Sendable(m)
  {
    hide Encode;
    WireSizeIsEncoded(m);
  }

  /** In every run, on any input its reader accepts, the server queues only what a client's reader accepts. */
  lemma {:induction false} RunSendable(cfg: R.Config, steps: seq<R.Step>, c: Id)
    requires ConfigFits(R.Init(cfg).cfg) && AllReadable(steps)
    ensures H.After(R.Init(cfg), steps).cfg == R.Init(cfg).cfg
    ensures AllSendable(H.Queued(R.Init(cfg), steps, c))
  {
    hide R.Perform, R.Inv, Sendable, Readable, ConfigFits;
    var s := R.Init(cfg);
    assert cfg.ice.IceServers? by { IceFits(s.cfg); }
    Replication.InitInv(cfg);
    if steps != [] {
      var before, last := steps[..|steps| - 1], steps[|steps| - 1];
      var t := H.After(s, before);
      RunSendable(cfg, before, c);
      H.AfterInv(s, before);
      if R.Enabled(t, last) {
        Replication.NextIdGrows(t, last, c);
        if last.Receive? {
          ReadableIffSendable(last.msg);
          SmallSendable(last.msg);
        }
        SmallStep(t, last);
        SendableFor(R.Perform(t, last).sends, c);
      }
    }
  }

  lemma IceFits(cfg: R.Config)
    requires ConfigFits(cfg)
    ensures cfg.ice.IceServers?
  {
  }

  // ------------------------------------------------------- through the writer

  /** What SendTo enqueues for each message: all its frames in one buffer. */
  function Buffers(ms: seq<Msg>): seq<O.Frame> {
    seq(|ms|, i requires 0 <= i < |ms| => Frames(Encode(ms[i])))
  }

  lemma {:induction false} ConcatMore(a: seq<O.Frame>, b: seq<O.Frame>)
    ensures Concat(a + b) == Concat(a) + Concat(b)
    decreases b
  {
    if b == [] {
      assert a + b == a && Concat(a) + [] == Concat(a);
    } else {
      assert (a + b)[..|a + b| - 1] == a + b[..|b| - 1];
      ConcatMore(a, b[..|b| - 1]);
      Assoc(Concat(a), Concat(b[..|b| - 1]), b[|b| - 1]);
    }
  }

  lemma ConcatOne(f: O.Frame)
    ensures Concat([f]) == f
  {
    var none: seq<O.Frame> := [f][..0];
    assert none == [] && [] + f == f;
  }

  lemma {:induction false} BuffersWire(ms: seq<Msg>)
    ensures Concat(Buffers(ms)) == Wire(ms)
  {
    hide Encode, Frames;
    if ms != [] {
      BuffersWire(ms[1..]);
      var first := Frames(Encode(ms[0]));
      assert Buffers(ms) == [first] + Buffers(ms[1..]);
      ConcatMore([first], Buffers(ms[1..]));
      ConcatOne(first);
    }
  }

  /** Whatever the writer has started on is a prefix of what was enqueued. */
  lemma StartedIsPrefix(wsteps: seq<O.Step>)
    ensures var w := O.Run(O.NEW_WRITER, wsteps);
            Concat(w.written + O.InFlight(w.phase)) <= Concat(w.enqueued)
  {
    O.NoLostWakeup(wsteps);
    var w := O.Run(O.NEW_WRITER, wsteps);
    ConcatMore(w.written + O.InFlight(w.phase), w.out);
  }

  // ---------------------------------------------------------------- theorems

  /**
   At any moment of any run: however the socket has cut whatever part of the
   bytes has got through, the client has refused nothing, has delivered a prefix
   of what the server queued, and that prefix fits its cache message by message.
   */
  lemma ArrivedSoFar(cfg: R.Config, steps: seq<R.Step>, c: Id, wsteps: seq<O.Step>, chunks: seq<seq<byte>>)
    requires ConfigFits(R.Init(cfg).cfg) && AllReadable(steps) && c in H.After(R.Init(cfg), steps).conns
    requires O.Run(O.NEW_WRITER, wsteps).enqueued == Buffers(H.Queued(R.Init(cfg), steps, c))
    requires var w := O.Run(O.NEW_WRITER, wsteps); Concat(chunks) <= Concat(w.written + O.InFlight(w.phase))
    ensures PollAll(chunks).open
    ensures PollAll(chunks).msgs <= H.Queued(R.Init(cfg), steps, c)
    ensures FitsAll(NEW_CACHE, PollAll(chunks).msgs)
  {
    hide O.Run, H.Queued, H.After, R.Init, Buffers, PollAll, Wire, Concat, Fold, FitsAll, AllReadable, ConfigFits, Sendable;
    var queued := H.Queued(R.Init(cfg), steps, c);
    StartedIsPrefix(wsteps);
    BuffersWire(queued);
    RunSendable(cfg, steps, c);
    PrefixDelivers(queued, chunks);
    assert cfg.ice.IceServers? by { IceFits(R.Init(cfg).cfg); SameIce(cfg); }
    QueuedLeads(cfg, steps, c);
    FitsPrefix(NEW_CACHE, queued, |PollAll(chunks).msgs|);
    assert queued[..|PollAll(chunks).msgs|] == PollAll(chunks).msgs;
  }

  lemma SameIce(cfg: R.Config)
    ensures R.Init(cfg).cfg.ice == cfg.ice
  {
  }

  lemma {:induction false} FitsPrefix(v: Cache, ms: seq<Msg>, n: nat)
    requires FitsAll(v, ms) && n <= |ms|
    ensures FitsAll(v, ms[..n])
    decreases n
  {
    hide Fits, Apply;
    if n > 0 {
      FitsPrefix(Apply(v, ms[0]), ms[1..], n - 1);
      assert ms[..n][1..] == ms[1..][..n - 1];
    }
  }

  /**
   Once everything queued has been written and read, in whatever pieces, the
   client's cache is the server's view: every layer composed.
   */
  lemma ArrivedWhole(cfg: R.Config, steps: seq<R.Step>, c: Id, wsteps: seq<O.Step>, chunks: seq<seq<byte>>)
    requires ConfigFits(R.Init(cfg).cfg) && AllReadable(steps) && c in H.After(R.Init(cfg), steps).conns
    requires O.Run(O.NEW_WRITER, wsteps).enqueued == Buffers(H.Queued(R.Init(cfg), steps, c))
    requires O.Run(O.NEW_WRITER, wsteps).phase.Parked?
    requires Concat(chunks) == Concat(O.Run(O.NEW_WRITER, wsteps).written)
    ensures PollAll(chunks) == Carved(H.Queued(R.Init(cfg), steps, c), [], [], true)
    ensures Fold(NEW_CACHE, PollAll(chunks).msgs) == Replication.View(H.After(R.Init(cfg), steps), c)
  {
    hide O.Run, H.Queued, H.After, R.Init, Buffers, PollAll, Wire, Concat, Fold, FitsAll, AllReadable, ConfigFits;
    hide Sendable, Replication.View;
    var queued := H.Queued(R.Init(cfg), steps, c);
    O.NoLostWakeup(wsteps);
    var w := O.Run(O.NEW_WRITER, wsteps);
    assert w.written == w.enqueued by { assert w.written + [] + [] == w.written; }
    BuffersWire(queued);
    RunSendable(cfg, steps, c);
    WireInChunks(queued, chunks);
    assert cfg.ice.IceServers? by { IceFits(R.Init(cfg).cfg); SameIce(cfg); }
    QueuedLeads(cfg, steps, c);
  }

  // ------------------------------------------------------ at the client object

  /** The mesh steps a client goes through when polled once per chunk; a refused stream clears the room. */
  function Polled(chunks: seq<seq<byte>>, events: seq<seq<M.Event>>, tapes: seq<nat -> M.Env>): seq<M.Step>
    requires |events| == |tapes| == |chunks|
    decreases |chunks|
  {
    if chunks == [] then []
    else
      var n := |chunks| - 1;
      var was, before := PollAll(chunks[..n]), Polled(chunks[..n], events[..n], tapes[..n]);
      if !was.open then before
      else
        var c := Carve(was.rx + chunks[n], was.partial);
        before + (ClientRuns.AsksAll(Fold(NEW_CACHE, was.msgs), c.msgs, tapes[n])
                  + if c.open then seq(|events[n]|, i requires 0 <= i < |events[n]| => M.Juice(events[n][i])) else [M.Clear])
  }

  /** One more poll of an open reader, seen from the cache and from the application. */
  lemma PolledMore(chunks: seq<seq<byte>>, cl: S.Client, tape: nat -> M.Env, i: nat)
    requires i < |chunks| && PollAll(chunks[..i]).open && cl.cache == Fold(NEW_CACHE, PollAll(chunks[..i]).msgs)
    ensures var was, now := PollAll(chunks[..i]), PollAll(chunks[..i + 1]);
            var c := Carve(was.rx + chunks[i], was.partial);
            && now == AfterAll(was.msgs, c)
            && DispatchAll(cl, c.msgs, tape).cache == Fold(NEW_CACHE, now.msgs)
            && Surfaced(now.msgs) == Surfaced(was.msgs) + Surfaced(c.msgs)
  {
    hide Carve, Fold, DispatchAll, Surfaced;
    var was := PollAll(chunks[..i]);
    var c := Carve(was.rx + chunks[i], was.partial);
    assert chunks[..i + 1][..i] == chunks[..i];
    DispatchFolds(cl, c.msgs, tape);
    FoldConcat(NEW_CACHE, was.msgs, c.msgs);
    SurfacedConcat(was.msgs, c.msgs);
  }

  /** One more poll, seen from the mesh. */
  lemma PolledSteps(chunks: seq<seq<byte>>, events: seq<seq<M.Event>>, tapes: seq<nat -> M.Env>, cl: S.Client, i: nat)
    requires |events| == |tapes| == |chunks| && i < |chunks| && PollAll(chunks[..i]).open
    requires cl.cache == Fold(NEW_CACHE, PollAll(chunks[..i]).msgs)
    requires cl.mesh == M.Exec(Polled(chunks[..i], events[..i], tapes[..i]))
    ensures var was := PollAll(chunks[..i]);
            var c := Carve(was.rx + chunks[i], was.partial);
            var after := DispatchAll(cl, c.msgs, tapes[i]);
            M.Exec(Polled(chunks[..i + 1], events[..i + 1], tapes[..i + 1]))
            == if c.open then HandleAll(after.mesh, events[i]) else HungUp(after).mesh
  {
    hide Carve, Fold, DispatchAll, M.Exec, HandleAll, M.DestroyAllLinks, PollAll, ClientRuns.AsksAll;
    assert chunks[..i + 1][..i] == chunks[..i] && events[..i + 1][..i] == events[..i] && tapes[..i + 1][..i] == tapes[..i];
    var was, before := PollAll(chunks[..i]), Polled(chunks[..i], events[..i], tapes[..i]);
    var c := Carve(was.rx + chunks[i], was.partial);
    var asked := ClientRuns.AsksAll(cl.cache, c.msgs, tapes[i]);
    DispatchIsRun(cl, c.msgs, tapes[i], before);
    if c.open {
      var juiced := seq(|events[i]|, j requires 0 <= j < |events[i]| => M.Juice(events[i][j]));
      EventsAreSteps(before + asked, events[i]);
      Assoc(before, asked, juiced);
    } else {
      ClientRuns.ExecOne(before + asked, M.Clear);
      Assoc(before, asked, [M.Clear]);
    }
  }

  /**
   A client polled once per chunk, amid any events: as long as nothing is
   refused its cache is everything carved so far, folded; a refusal clears it.
   Its mesh has run through what those messages asked and those events reported.
   */
  method PollEach(chunks: seq<seq<byte>>, events: seq<seq<M.Event>>, tapes: seq<nat -> M.Env>) returns (client: Client)
    requires |events| == |tapes| == |chunks|
    ensures fresh(client) && client.connected == PollAll(chunks).open
    ensures client.inbox == Surfaced(PollAll(chunks).msgs)
    ensures var v := Fold(NEW_CACHE, PollAll(chunks).msgs);
            client.CacheNow() == if client.connected then v else Cleared(v)
    ensures client.MeshNow() == M.Exec(Polled(chunks, events, tapes))
  {
    hide Carve, Fold, DispatchAll, Surfaced, HandleAll, M.Exec, Polled, M.DestroyAllLinks;
    client := new Client();
    NothingFolded();
    for i := 0 to |chunks|
      invariant fresh(client)
      invariant Synced(client.Now(), client.connected, client.inbox, client.rx, client.rxMsg, chunks, events, tapes, i)
    {
      assert chunks[..i + 1][..i] == chunks[..i];
      if client.connected {
        PolledMore(chunks, client.Now(), tapes[i], i);
        PolledSteps(chunks, events, tapes, client.Now(), i);
      } else {
        PolledClosed(chunks, events, tapes, i);
      }
      var _ := client.Poll(chunks[i], events[i], tapes[i]);
    }
    assert chunks[..|chunks|] == chunks && events[..|chunks|] == events && tapes[..|chunks|] == tapes;
  }

  /** The client object after `i` polls. */
  ghost predicate Synced(cl: S.Client, connected: bool, inbox: seq<Msg>, rx: seq<byte>, rxMsg: seq<byte>,
                         chunks: seq<seq<byte>>, events: seq<seq<M.Event>>, tapes: seq<nat -> M.Env>, i: nat)
    requires |events| == |tapes| == |chunks| && i <= |chunks|
  {
    var c := PollAll(chunks[..i]);
    var v := Fold(NEW_CACHE, c.msgs);
    && connected == c.open && inbox == Surfaced(c.msgs)
    && cl.cache == (if c.open then v else Cleared(v))
    && cl.mesh == M.Exec(Polled(chunks[..i], events[..i], tapes[..i]))
    && (c.open ==> rx == c.rx && rxMsg == c.partial)
  }

  lemma PolledClosed(chunks: seq<seq<byte>>, events: seq<seq<M.Event>>, tapes: seq<nat -> M.Env>, i: nat)
    requires |events| == |tapes| == |chunks| && i < |chunks| && !PollAll(chunks[..i]).open
    ensures PollAll(chunks[..i + 1]) == PollAll(chunks[..i])
    ensures Polled(chunks[..i + 1], events[..i + 1], tapes[..i + 1]) == Polled(chunks[..i], events[..i], tapes[..i])
  {
    hide Carve;
    assert chunks[..i + 1][..i] == chunks[..i] && events[..i + 1][..i] == events[..i] && tapes[..i + 1][..i] == tapes[..i];
  }

  /** The events of the polls that found the stream in order. */
  function Drained(chunks: seq<seq<byte>>, events: seq<seq<M.Event>>): seq<M.Event>
    requires |events| == |chunks|
  {
    if chunks == [] then []
    else
      var n := |chunks| - 1;
      Drained(chunks[..n], events[..n]) + if PollAll(chunks).open then events[n] else []
  }

  /** Polling loses nothing: the mesh handles every signal carved and every event drained, each in order. */
  lemma {:induction false} PolledInOrder(chunks: seq<seq<byte>>, events: seq<seq<M.Event>>, tapes: seq<nat -> M.Env>)
    requires |events| == |tapes| == |chunks|
    ensures ClientRuns.SignalsIn(Polled(chunks, events, tapes)) == ClientRuns.SignalsOf(PollAll(chunks).msgs)
    ensures ClientRuns.EventsIn(Polled(chunks, events, tapes)) == Drained(chunks, events)
    decreases |chunks|
  {
    hide Carve, Fold, ClientRuns.AsksAll, ClientRuns.SignalsIn, ClientRuns.EventsIn, ClientRuns.SignalsOf;
    if chunks == [] {
      ClientRuns.ProjectOne(M.Clear);
      NoSignalsYet();
    } else {
      var n := |chunks| - 1;
      PolledInOrder(chunks[..n], events[..n], tapes[..n]);
      var was, before := PollAll(chunks[..n]), Polled(chunks[..n], events[..n], tapes[..n]);
      if was.open {
        var c := Carve(was.rx + chunks[n], was.partial);
        PollProjected(before, Fold(NEW_CACHE, was.msgs), c.msgs, tapes[n], events[n], c.open);
        ClientRuns.SignalsOfConcat(was.msgs, c.msgs);
      } else {
        assert Drained(chunks[..n], events[..n]) + [] == Drained(chunks[..n], events[..n]);
      }
    }
  }

  /** The signals and events of one poll's steps. */
  lemma PollProjected(before: seq<M.Step>, v: Cache, ms: seq<Msg>, tape: nat -> M.Env, events: seq<M.Event>, open: bool)
    ensures var rest := if open then seq(|events|, i requires 0 <= i < |events| => M.Juice(events[i])) else [M.Clear];
            var all := before + (ClientRuns.AsksAll(v, ms, tape) + rest);
            && ClientRuns.SignalsIn(all) == ClientRuns.SignalsIn(before) + ClientRuns.SignalsOf(ms)
            && ClientRuns.EventsIn(all) == ClientRuns.EventsIn(before) + if open then events else []
  {
    hide ClientRuns.AsksAll, ClientRuns.SignalsIn, ClientRuns.EventsIn, ClientRuns.SignalsOf;
    var rest := if open then seq(|events|, i requires 0 <= i < |events| => M.Juice(events[i])) else [M.Clear];
    var asked := ClientRuns.AsksAll(v, ms, tape);
    ClientRuns.ProjectConcat(before, asked + rest);
    ClientRuns.ProjectConcat(asked, rest);
    ClientRuns.AsksAllProjected(v, ms, tape);
    if open { JuicedEvents(events); } else { ClientRuns.ProjectOne(M.Clear); }
    assert ClientRuns.SignalsOf(ms) + [] == ClientRuns.SignalsOf(ms);
  }

  lemma NoSignalsYet()
    ensures ClientRuns.SignalsOf([]) == []
  {
  }

  lemma {:induction false} JuicedEvents(events: seq<M.Event>)
    ensures var juiced := seq(|events|, i requires 0 <= i < |events| => M.Juice(events[i]));
            ClientRuns.SignalsIn(juiced) == [] && ClientRuns.EventsIn(juiced) == events
  {
    hide ClientRuns.SignalsIn, ClientRuns.EventsIn;
    ClientRuns.ProjectOne(M.Clear);
    var juiced := seq(|events|, i requires 0 <= i < |events| => M.Juice(events[i]));
    if events == [] {
      assert juiced == [];
    } else {
      var n := |events| - 1;
      JuicedEvents(events[..n]);
      var most := seq(n, i requires 0 <= i < n => M.Juice(events[..n][i]));
      assert juiced == most + [M.Juice(events[n])];
      ClientRuns.ProjectConcat(most, [M.Juice(events[n])]);
      ClientRuns.ProjectOne(M.Juice(events[n]));
      assert events[..n] + [events[n]] == events;
    }
  }

  lemma NothingFolded()
    ensures Fold(NEW_CACHE, []) == NEW_CACHE && Surfaced([]) == []
    ensures Polled([], [], []) == [] && M.Exec([]) == M.NEW_MESH
  {
  }

  /** The client object itself: once everything queued has been written and polled, its cache is the server's view. */
  method ArrivedAtClient(ghost cfg: R.Config, ghost steps: seq<R.Step>, ghost c: Id, ghost wsteps: seq<O.Step>,
                         chunks: seq<seq<byte>>, events: seq<seq<M.Event>>, tapes: seq<nat -> M.Env>)
    returns (client: Client)
    requires |events| == |tapes| == |chunks|
    requires ConfigFits(R.Init(cfg).cfg) && AllReadable(steps) && c in H.After(R.Init(cfg), steps).conns
    requires O.Run(O.NEW_WRITER, wsteps).enqueued == Buffers(H.Queued(R.Init(cfg), steps, c))
    requires O.Run(O.NEW_WRITER, wsteps).phase.Parked?
    requires Concat(chunks) == Concat(O.Run(O.NEW_WRITER, wsteps).written)
    ensures client.connected && client.CacheNow() == Replication.View(H.After(R.Init(cfg), steps), c)
    ensures client.inbox == Surfaced(H.Queued(R.Init(cfg), steps, c))
  {
    ArrivedWhole(cfg, steps, c, wsteps, chunks);
    hide O.Run, H.Queued, H.After, R.Init, Buffers, PollAll, Concat, Fold, AllReadable, ConfigFits, Replication.View;
    client := PollEach(chunks, events, tapes);
  }
}
