/**
 Properties of whole server runs: the chat every member sees, the order of the
 member list, who inherits a room, how long a ban lasts, what relaying keeps.
 */
module History {
  import opened Protocol
  import opened Seqs
  import opened Replica
  import opened Rooms
  import opened Replication
  import opened Laws
  import opened Outcomes

  // -------------------------------------------------------------------- chat

  function Chats(ms: seq<Msg>): seq<Msg> {
    if ms == [] then [] else (if ms[0].RoomChat? then [ms[0]] else []) + Chats(ms[1..])
  }

  lemma {:induction false} NoChats(ms: seq<Msg>)
    requires forall i :: 0 <= i < |ms| ==> !ms[i].RoomChat?
    ensures Chats(ms) == []
  {
    if ms != [] { NoChats(ms[1..]); }
  }

  lemma ChatsOne(m: Msg)
    ensures Chats([m]) == Notice(m.RoomChat?, m) && Chats([]) == []
  {
    assert [m][1..] == [];
  }

  /** The room a step chats in, if it is a chat the server accepts. */
  predicate ChatsIn(s: Core, step: Step, k: Str) {
    step.Receive? && step.msg.RoomChat? && step.c in s.conns && s.conns[step.c].room == k && k in s.rooms
  }

  /** A member is queued the chat of its own room, whole, and no other. */
  lemma ChatStep(s: Core, step: Step, x: Id)
    requires Inv(s) && Enabled(s, step) && x in s.conns && RoomOf(s, x) != []
    ensures Chats(For(Perform(s, step).sends, x))
         == if ChatsIn(s, step, RoomOf(s, x)) then [RoomChat(step.c, step.msg.text)] else []
  {
    hide Perform, For, Chats;
    HeardExactly(s, step, x);
    var heard := Hears(s, step, x);
    if step.Receive? && step.msg.RoomChat? {
      assert ConnAt(s, x) && RoomAt(s, RoomOf(s, step.c));
      ChatsOne(RoomChat(step.c, step.msg.text));
      ChatsOne(RoomError(NOT_IN_ROOM, []));
    } else {
      forall i | 0 <= i < |heard| ensures !heard[i].RoomChat? { HearsCaused(s, step, x, i); }
      hide Hears;
      NoChats(heard);
    }
    hide Inv;
  }

  // ------------------------------------------------------- history variables

  /** When a connection sat down, where its room's chat then stood, the chat queued to it since. */
  datatype Seat = Seat(since: nat, point: nat, heard: seq<Msg>)

  /** A run with memory: per room, the chat since it was created; per connection, its latest seat. */
  datatype Hist = Hist(core: Core, clock: nat, logs: map<Str, seq<Msg>>, seats: map<Id, Seat>)

  function Fresh(cfg: Config): Hist {
    Hist(Init(cfg), 0, map[], map[])
  }

  /** Rooms that appear start an empty log; an accepted chat extends its room's. */
  function NextLog(h: Hist, step: Step, k: Str): seq<Msg> {
    if k !in h.logs then []
    else h.logs[k] + if ChatsIn(h.core, step, k) then [RoomChat(step.c, step.msg.text)] else []
  }

  /** `c` is seated after the step, and was not seated there before. */
  predicate Sits(s: Core, t: Core, c: Id) {
    c in t.conns && t.conns[c].room != [] && !(c in s.conns && s.conns[c].room == t.conns[c].room)
  }

  function Advance(h: Hist, step: Step): Hist {
    if !Enabled(h.core, step) then h
    else
      var e := Perform(h.core, step);
      var logs := map k | k in e.core.rooms :: NextLog(h, step, k);
      Hist(e.core, h.clock + 1, logs,
           map c | c in e.core.conns && (Sits(h.core, e.core, c) || c in h.seats) ::
             if Sits(h.core, e.core, c)
             then Seat(h.clock, if e.core.conns[c].room in logs then |logs[e.core.conns[c].room]| else 0, [])
             else h.seats[c].(heard := h.seats[c].heard + Chats(For(e.sends, c))))
  }

  function Past(cfg: Config, steps: seq<Step>): Hist {
    if steps == [] then Fresh(cfg) else Advance(Past(cfg, steps[..|steps| - 1]), steps[|steps| - 1])
  }

  /** A seated connection has heard exactly the chat from where it sat down. */
  ghost predicate HeardAt(h: Hist, c: Id) {
    c in h.core.conns && h.core.conns[c].room != [] ==>
      var k := h.core.conns[c].room;
      && k in h.logs && c in h.seats && h.seats[c].since < h.clock
      && h.seats[c].point <= |h.logs[k]| && h.seats[c].heard == h.logs[k][h.seats[c].point..]
  }

  /** Listed in the order of sitting down. */
  ghost predicate Rising(ms: seq<Id>, seats: map<Id, Seat>) {
    && (forall i :: 0 <= i < |ms| ==> ms[i] in seats)
    && forall i, j :: 0 <= i < j < |ms| ==> seats[ms[i]].since < seats[ms[j]].since
  }

  ghost predicate SeatedAt(h: Hist, k: Str) {
    k in h.core.rooms ==> Rising(h.core.rooms[k].members, h.seats)
  }

  ghost predicate HistOk(h: Hist) {
    && Inv(h.core) && h.logs.Keys == h.core.rooms.Keys
    && (forall c :: HeardAt(h, c)) && (forall k :: SeatedAt(h, k))
  }

  lemma {:induction false} RisingWithout(ms: seq<Id>, seats: map<Id, Seat>, x: Id)
    requires Rising(ms, seats)
    ensures Rising(Without(ms, x), seats)
  {
    if ms != [] {
      var rest := Without(ms[1..], x);
      assert Rising(ms[1..], seats);
      RisingWithout(ms[1..], seats, x);
      if ms[0] != x {
        forall j | 0 <= j < |rest| ensures seats[ms[0]].since < seats[rest[j]].since {
          assert rest[j] in ms[1..];
        }
        RisingCons(ms[0], rest, seats);
      }
    }
  }

  lemma RisingCons(x: Id, rest: seq<Id>, seats: map<Id, Seat>)
    requires x in seats && Rising(rest, seats) && forall j :: 0 <= j < |rest| ==> seats[x].since < seats[rest[j]].since
    ensures Rising([x] + rest, seats)
  {
  }

  /** Members that keep their seats keep their order. */
  lemma RisingKept(ms: seq<Id>, seats: map<Id, Seat>, later: map<Id, Seat>)
    requires Rising(ms, seats)
    requires forall i :: 0 <= i < |ms| ==> ms[i] in later && later[ms[i]].since == seats[ms[i]].since
    ensures Rising(ms, later)
  {
  }

  lemma HeardKept(h: Hist, step: Step, c: Id)
    requires HistOk(h) && Enabled(h.core, step)
    ensures HeardAt(Advance(h, step), c)
  {
    hide Perform, Chats, For, Tracks, RoomAt;
    var s, e, g := h.core, Perform(h.core, step), Advance(h, step);
    StepGood(s, step);
    assert ConnAt(e.core, c);
    if c in e.core.conns && e.core.conns[c].room != [] && !Sits(s, e.core, c) {
      assert HeardAt(h, c);
      ChatStep(s, step, c);
      hide Inv;
      var k, seat := s.conns[c].room, h.seats[c];
      var x := if ChatsIn(s, step, k) then [RoomChat(step.c, step.msg.text)] else [];
      assert (h.logs[k] + x)[seat.point..] == h.logs[k][seat.point..] + x;
    }
  }

  lemma SeatAfter(h: Hist, step: Step, m: Id)
    requires Enabled(h.core, step) && m in Perform(h.core, step).core.conns
    requires m in h.seats || Sits(h.core, Perform(h.core, step).core, m)
    ensures m in Advance(h, step).seats
    ensures Advance(h, step).seats[m].since
         == if Sits(h.core, Perform(h.core, step).core, m) then h.clock else h.seats[m].since
  {
    hide Perform, Chats, For, Sits, NextLog;
  }

  /** A listed member that was listed before keeps its seat. */
  lemma SeatKept(h: Hist, step: Step, k: Str, m: Id)
    requires HistOk(h) && Enabled(h.core, step) && k in h.core.rooms && k in Perform(h.core, step).core.rooms
    requires m in h.core.rooms[k].members && m in Perform(h.core, step).core.rooms[k].members
    ensures m in h.seats && m in Advance(h, step).seats
    ensures Advance(h, step).seats[m].since == h.seats[m].since < h.clock
  {
    hide Perform, Advance, RoomOk, Tracks;
    StepGood(h.core, step);
    assert RoomAt(h.core, k) && RoomAt(h.core, []) && RoomAt(Perform(h.core, step).core, k) && HeardAt(h, m);
    SeatAfter(h, step, m);
  }

  /** A listed member that was not listed before has just sat down. */
  lemma SeatNew(h: Hist, step: Step, k: Str, m: Id)
    requires HistOk(h) && Enabled(h.core, step) && k in Perform(h.core, step).core.rooms
    requires m in Perform(h.core, step).core.rooms[k].members && (k in h.core.rooms ==> m !in h.core.rooms[k].members)
    ensures m in Advance(h, step).seats && Advance(h, step).seats[m].since == h.clock
  {
    hide Perform, Advance, RoomOk, Tracks;
    StepGood(h.core, step);
    var t := Perform(h.core, step).core;
    assert RoomAt(t, k) && RoomAt(t, []) && ConnAt(h.core, m);
    SeatAfter(h, step, m);
  }

  /** One seat at most is taken, at the end, or given up, from anywhere. */
  ghost predicate Reseated(were: seq<Id>, ms: seq<Id>) {
    || ms == were
    || (exists x :: x !in were && ms == were + [x])
    || (exists x :: x in were && ms == Without(were, x))
  }

  lemma MembersChange(s: Core, step: Step, k: Str)
    requires Inv(s) && Enabled(s, step) && k in Perform(s, step).core.rooms
    ensures if k in s.rooms then Reseated(s.rooms[k].members, Perform(s, step).core.rooms[k].members)
            else |Perform(s, step).core.rooms[k].members| == 1
  {
    hide Perform, Inv, HostLaw, SettingsLaw, MemberDataLaw, MayRemove, Local;
    StepLawful(s, step);
  }

  lemma OrderKept(h: Hist, step: Step, k: Str)
    requires HistOk(h) && Enabled(h.core, step)
    ensures SeatedAt(Advance(h, step), k)
  {
    hide Perform, Advance, Inv, HeardAt;
    var s, t, g := h.core, Perform(h.core, step).core, Advance(h, step);
    AdvanceCore(h, step);
    if k in t.rooms {
      MembersChange(s, step, k);
      assert SeatedAt(h, k);
      var ms := t.rooms[k].members;
      forall m | m in ms ensures m in g.seats {
        if k in s.rooms && m in s.rooms[k].members { SeatKept(h, step, k, m); } else { SeatNew(h, step, k, m); }
      }
      if k in s.rooms {
        var were := s.rooms[k].members;
        forall m | m in ms && m in were ensures g.seats[m].since == h.seats[m].since < h.clock {
          SeatKept(h, step, k, m);
        }
        forall m | m in ms && m !in were ensures g.seats[m].since == h.clock { SeatNew(h, step, k, m); }
        ReseatedRises(were, ms, h, g);
      }
    }
  }

  lemma ReseatedRises(were: seq<Id>, ms: seq<Id>, h: Hist, g: Hist)
    requires Rising(were, h.seats) && Reseated(were, ms) && forall m :: m in ms ==> m in g.seats
    requires forall m :: m in ms && m in were ==> g.seats[m].since == h.seats[m].since < h.clock
    requires forall m :: m in ms && m !in were ==> g.seats[m].since == h.clock
    ensures Rising(ms, g.seats)
  {
    hide Without;
    if ms == were {
      RisingKept(ms, h.seats, g.seats);
    } else if x :| x in were && ms == Without(were, x) {
      RisingWithout(were, h.seats, x);
      RisingKept(ms, h.seats, g.seats);
    }
  }

  lemma AdvanceCore(h: Hist, step: Step)
    requires Enabled(h.core, step)
    ensures Advance(h, step).core == Perform(h.core, step).core
  {
    hide Perform;
  }

  lemma AdvanceKeeps(h: Hist, step: Step)
    requires HistOk(h)
    ensures HistOk(Advance(h, step))
  {
    if Enabled(h.core, step) {
      StepGood(h.core, step);
      hide Perform, HeardAt, SeatedAt, Chats, For, Inv;
      forall c ensures HeardAt(Advance(h, step), c) { HeardKept(h, step, c); }
      forall k ensures SeatedAt(Advance(h, step), k) { OrderKept(h, step, k); }
    }
  }

  lemma {:induction false} PastOk(cfg: Config, steps: seq<Step>)
    requires cfg.ice.IceServers?
    ensures HistOk(Past(cfg, steps))
  {
    if steps == [] {
      InitInv(cfg);
    } else {
      PastOk(cfg, steps[..|steps| - 1]);
      AdvanceKeeps(Past(cfg, steps[..|steps| - 1]), steps[|steps| - 1]);
    }
  }

  // ---------------------------------------------------------------- theorems

  /** In every run a member has been queued exactly its room's chat from its join point on. */
  lemma ChatIsLogSuffix(cfg: Config, steps: seq<Step>, c: Id)
    requires cfg.ice.IceServers?
    requires var h := Past(cfg, steps); c in h.core.conns && h.core.conns[c].room != []
    ensures var h := Past(cfg, steps);
            var k := h.core.conns[c].room;
            c in h.seats && k in h.logs && h.seats[c].point <= |h.logs[k]|
            && h.seats[c].heard == h.logs[k][h.seats[c].point..]
  {
    PastOk(cfg, steps);
    assert HeardAt(Past(cfg, steps), c);
  }

  /** Any two members of a room have seen the same chat over their common stay. */
  lemma ChatTotalOrder(cfg: Config, steps: seq<Step>, c: Id, d: Id)
    requires cfg.ice.IceServers?
    requires var h := Past(cfg, steps);
             c in h.core.conns && d in h.core.conns && h.core.conns[c].room == h.core.conns[d].room != []
             && c in h.seats && d in h.seats && h.seats[c].point <= h.seats[d].point
    ensures var h := Past(cfg, steps);
            var gap := h.seats[d].point - h.seats[c].point;
            gap <= |h.seats[c].heard| && h.seats[d].heard == h.seats[c].heard[gap..]
  {
    hide Past;
    ChatIsLogSuffix(cfg, steps, c);
    ChatIsLogSuffix(cfg, steps, d);
    var h := Past(cfg, steps);
    var log := h.logs[h.core.conns[c].room];
    assert log[h.seats[c].point..][h.seats[d].point - h.seats[c].point..] == log[h.seats[d].point..];
  }

  /** In every run the member list is in join order, so its head has been there longest. */
  lemma MembersInJoinOrder(cfg: Config, steps: seq<Step>, k: Str, i: nat, j: nat)
    requires cfg.ice.IceServers?
    requires k in Past(cfg, steps).core.rooms && i < j < |Past(cfg, steps).core.rooms[k].members|
    ensures var h := Past(cfg, steps);
            var ms := h.core.rooms[k].members;
            ms[i] in h.seats && ms[j] in h.seats && h.seats[ms[i]].since < h.seats[ms[j]].since
  {
    PastOk(cfg, steps);
    assert SeatedAt(Past(cfg, steps), k);
  }

  /** When a host departs, whoever has been in the room longest takes over. */
  lemma HostSuccession(cfg: Config, steps: seq<Step>, step: Step, k: Str)
    requires cfg.ice.IceServers? && Enabled(Past(cfg, steps).core, step)
    requires k in Past(cfg, steps).core.rooms && k in Perform(Past(cfg, steps).core, step).core.rooms
    requires Past(cfg, steps).core.rooms[k].host !in Perform(Past(cfg, steps).core, step).core.rooms[k].members
    ensures var h := Past(cfg, steps);
            var t := Perform(h.core, step).core.rooms[k];
            && t.host in h.core.rooms[k].members && t.host in t.members && t.host in h.seats
            && forall x :: x in t.members && x != t.host ==> x in h.seats && h.seats[t.host].since < h.seats[x].since
  {
    PastOk(cfg, steps);
    var h := Past(cfg, steps);
    SuccessorLongest(h, step, k);
  }

  lemma HostGone(r: Room, t: Room, step: Step) returns (x: Id)
    requires RoomLaw(r, t, step) && r.host in r.members && r.host !in t.members && t.host in t.members
    ensures t.members != [] && t.host == t.members[0]
    ensures x in r.members && t.members == Without(r.members, x)
  {
    hide Without, SettingsLaw, MemberDataLaw;
    assert t.members != r.members && (step.Receive? ==> t.members != r.members + [step.c]);
    x :| x in r.members && MayRemove(r, step, x) && t.members == Without(r.members, x);
  }

  lemma SuccessorLongest(h: Hist, step: Step, k: Str)
    requires HistOk(h) && Enabled(h.core, step)
    requires k in h.core.rooms && k in Perform(h.core, step).core.rooms
    requires h.core.rooms[k].host !in Perform(h.core, step).core.rooms[k].members
    ensures var t := Perform(h.core, step).core.rooms[k];
            && t.host in h.core.rooms[k].members && t.host in t.members && t.host in h.seats
            && forall x :: x in t.members && x != t.host ==> x in h.seats && h.seats[t.host].since < h.seats[x].since
  {
    hide Perform, Tracks, RoomLaw, Local, Without, Rising;
    var were, t := h.core.rooms[k], Perform(h.core, step).core.rooms[k];
    StepLawful(h.core, step);
    StepGood(h.core, step);
    assert were.host in were.members by { assert RoomAt(h.core, k); }
    assert t.host in t.members by { assert RoomAt(Perform(h.core, step).core, k); }
    assert Rising(were.members, h.seats) by { assert SeatedAt(h, k); }
    hide Inv, HeardAt, SeatedAt;
    assert RoomLaw(were, t, step);
    hide Lawful;
    var x := HostGone(were, t, step);
    RisingWithout(were.members, h.seats, x);
    HeadFirst(t.members, h.seats);
  }

  lemma HeadFirst(ms: seq<Id>, seats: map<Id, Seat>)
    requires Rising(ms, seats) && ms != []
    ensures ms[0] in seats && forall y :: y in ms && y != ms[0] ==> y in seats && seats[ms[0]].since < seats[y].since
  {
  }

  /** A kick or a ban leaves the room it acted on in place, host included. */
  lemma EvictionKeepsRoom(s: Core, step: Step)
    requires Inv(s) && Enabled(s, step) && step.Receive? && (step.msg.KickMember? || step.msg.BanMember?)
    requires RoomOf(s, step.c) in s.rooms
    ensures RoomOf(s, step.c) in Perform(s, step).core.rooms
    ensures Perform(s, step).core.rooms[RoomOf(s, step.c)].host == s.rooms[RoomOf(s, step.c)].host
  {
    var k := RoomOf(s, step.c);
    StepLawful(s, step);
    StepGood(s, step);
    assert RoomAt(s, k) && RoomAt(s, []) && RoomAt(Perform(s, step).core, k);
    hide Perform;
  }

  // ------------------------------------------------- authority over whole runs

  function After(s: Core, steps: seq<Step>): Core {
    if steps == [] then s
    else
      var t := After(s, steps[..|steps| - 1]);
      if Enabled(t, steps[|steps| - 1]) then Perform(t, steps[|steps| - 1]).core else t
  }

  lemma {:induction false} AfterInv(s: Core, steps: seq<Step>)
    requires Inv(s)
    ensures Inv(After(s, steps))
  {
    hide Inv, Perform;
    if steps != [] {
      var t := After(s, steps[..|steps| - 1]);
      AfterInv(s, steps[..|steps| - 1]);
      if Enabled(t, steps[|steps| - 1]) { StepGood(t, steps[|steps| - 1]); }
    }
  }

  /** Room `k` exists all through the run: one lifetime of one room. */
  predicate Survives(s: Core, steps: seq<Step>, k: Str) {
    k in After(s, steps).rooms && (steps == [] || Survives(s, steps[..|steps| - 1], k))
  }

  /** One surviving step of one room, as the law sees it. */
  lemma SurvivingStep(s: Core, step: Step, k: Str)
    requires Inv(s) && Enabled(s, step) && k in s.rooms && k in Perform(s, step).core.rooms
    ensures Perform(s, step).core.rooms[k] == s.rooms[k] || RoomLaw(s.rooms[k], Perform(s, step).core.rooms[k], step)
  {
    hide Perform, Inv, RoomLaw, Local;
    StepLawful(s, step);
  }

  /** A ban lasts as long as the room: the list only grows, and nobody on it is ever a member. */
  lemma {:induction false} BanPermanence(s: Core, steps: seq<Step>, k: Str)
    requires Inv(s) && Survives(s, steps, k)
    ensures k in s.rooms && s.rooms[k].banned <= After(s, steps).rooms[k].banned
    ensures forall x :: x in s.rooms[k].banned ==> x !in After(s, steps).rooms[k].members
  {
    hide Perform, Inv;
    AfterInv(s, steps);
    if steps != [] {
      var before, last := steps[..|steps| - 1], steps[|steps| - 1];
      BanPermanence(s, before, k);
      AfterInv(s, before);
      if Enabled(After(s, before), last) { SurvivingStep(After(s, before), last, k); }
    }
    BannedOut(After(s, steps), k);
  }

  lemma BannedOut(s: Core, k: Str)
    requires Inv(s) && k in s.rooms
    ensures forall x :: x in s.rooms[k].banned ==> x !in s.rooms[k].members
  {
    assert RoomAt(s, k);
  }

  /** No message of the run comes from whoever hosts `k` at that moment. */
  predicate HostSilent(s: Core, steps: seq<Step>, k: Str) {
    steps == [] ||
    (var before, last := steps[..|steps| - 1], steps[|steps| - 1];
     HostSilent(s, before, k) && (k in After(s, before).rooms ==> !FromHost(After(s, before).rooms[k], last)))
  }

  /** Only a host's messages change a room's data, access settings or bans. */
  lemma {:induction false} SettingsNeedHost(s: Core, steps: seq<Step>, k: Str)
    requires Inv(s) && Survives(s, steps, k) && HostSilent(s, steps, k)
    ensures k in s.rooms
    ensures var r, t := s.rooms[k], After(s, steps).rooms[k];
            t.data == r.data && t.open == r.open && t.password == r.password && t.banned == r.banned
  {
    hide Perform, Inv;
    if steps != [] {
      var before, last := steps[..|steps| - 1], steps[|steps| - 1];
      SettingsNeedHost(s, before, k);
      AfterInv(s, before);
      if Enabled(After(s, before), last) { SurvivingStep(After(s, before), last, k); }
    }
  }

  /** The host of `r` hands the room to another member, or goes. */
  predicate EndsTerm(r: Room, step: Step) {
    || (step.Disconnect? && step.c == r.host)
    || (FromHost(r, step) && (step.msg.LeaveRoom? || (step.msg.TransferHost? && step.msg.id in r.members && step.msg.id != r.host)))
  }

  /** No step of the run ends the term of whoever hosts `k` at that moment. */
  predicate TermLasts(s: Core, steps: seq<Step>, k: Str) {
    steps == [] ||
    (var before, last := steps[..|steps| - 1], steps[|steps| - 1];
     TermLasts(s, before, k) && (k in After(s, before).rooms ==> !EndsTerm(After(s, before).rooms[k], last)))
  }

  /** In a room that survives the step, the host changes exactly when the host itself ends its term. */
  lemma HostChangesIff(s: Core, step: Step, k: Str)
    requires Inv(s) && Enabled(s, step) && k in s.rooms && k in Perform(s, step).core.rooms
    ensures Perform(s, step).core.rooms[k].host != s.rooms[k].host <==> EndsTerm(s.rooms[k], step)
  {
    hide Perform, Inv, RoomLaw, EndsTerm;
    var r, t := s.rooms[k], Perform(s, step).core.rooms[k];
    HostIn(s, k);
    if EndsTerm(r, step) {
      TermEnds(s, step, k);
    } else {
      SurvivingStep(s, step, k);
      if RoomLaw(r, t, step) { HostOutlasts(r, t, step); }
    }
  }

  lemma TermEnds(s: Core, step: Step, k: Str)
    requires Inv(s) && Enabled(s, step) && k in s.rooms && k in Perform(s, step).core.rooms
    requires EndsTerm(s.rooms[k], step)
    ensures Perform(s, step).core.rooms[k].host != s.rooms[k].host
  {
    hide Depart, Handle, RoomOk, ToMany;
    var c := s.rooms[k].host;
    HostIn(s, k);
    assert RoomAt(s, k) && RoomAt(s, []) && ConnAt(s, c);
    if step.Receive? && step.msg.TransferHost? {
      InRoomVerdict(s, c, step.msg, step.code);
    } else {
      StepGood(s, step);
      HostIn(Perform(s, step).core, k);
      assert RoomAt(Perform(s, step).core, k);
      if step.Receive? { LeaverOut(s, step); }
    }
    hide Inv, Tracks, Verdict;
  }

  lemma LeaverOut(s: Core, step: Step)
    requires Inv(s) && Enabled(s, step) && step.Receive? && step.msg.LeaveRoom? && RoomOf(s, step.c) != []
    ensures step.c in Perform(s, step).core.conns && RoomOf(Perform(s, step).core, step.c) == []
  {
    hide Depart, Inv;
    Leaving(s, step.c);
    DepartInv(s, step.c);
  }

  /** Nobody but the host itself ends a host's term: not by anything anyone else does, nor by anything else it does. */
  lemma {:induction false} HostNeedsCause(s: Core, steps: seq<Step>, k: Str)
    requires Inv(s) && Survives(s, steps, k) && TermLasts(s, steps, k)
    ensures k in s.rooms && After(s, steps).rooms[k].host == s.rooms[k].host
  {
    hide Perform, Inv, EndsTerm;
    if steps != [] {
      var before, last := steps[..|steps| - 1], steps[|steps| - 1];
      HostNeedsCause(s, before, k);
      AfterInv(s, before);
      if Enabled(After(s, before), last) { HostChangesIff(After(s, before), last, k); }
    }
  }

  lemma HostIn(s: Core, k: Str)
    requires Inv(s) && k in s.rooms
    ensures s.rooms[k].host in s.rooms[k].members
  {
    assert RoomAt(s, k);
  }

  lemma HostOutlasts(r: Room, t: Room, step: Step)
    requires RoomLaw(r, t, step) && r.host in r.members
    requires !EndsTerm(r, step)
    ensures t.host == r.host
  {
    hide SettingsLaw, MemberDataLaw;
  }

  // ------------------------------------------------------------------ relaying

  function SignalsFrom(ms: seq<Msg>, a: Id): seq<Msg> {
    if ms == [] then []
    else (if ms[0].P2PSignal? && ms[0].id == a then [ms[0]] else []) + SignalsFrom(ms[1..], a)
  }

  lemma {:induction false} SignalsConcat(ms: seq<Msg>, ns: seq<Msg>, a: Id)
    ensures SignalsFrom(ms + ns, a) == SignalsFrom(ms, a) + SignalsFrom(ns, a)
  {
    if ms == [] {
      assert ms + ns == ns;
    } else {
      assert (ms + ns)[1..] == ms[1..] + ns;
      SignalsConcat(ms[1..], ns, a);
    }
  }

  lemma {:induction false} NoSignals(ms: seq<Msg>, a: Id)
    requires forall i :: 0 <= i < |ms| ==> !ms[i].P2PSignal?
    ensures SignalsFrom(ms, a) == []
  {
    if ms != [] { NoSignals(ms[1..], a); }
  }

  /** What `a` asks the server to relay to `b`, as `b` should receive it. */
  function Asks(step: Step, a: Id, b: Id): seq<Msg> {
    if step.Receive? && step.c == a && step.msg.P2PSignal? && step.msg.id == b
    then [P2PSignal(a, step.msg.kind, step.msg.payload)] else []
  }

  lemma RelayStep(s: Core, step: Step, a: Id, b: Id)
    requires Inv(s) && Enabled(s, step) && a != b && a in s.conns && b in s.conns && RoomOf(s, a) == RoomOf(s, b) != []
    ensures SignalsFrom(For(Perform(s, step).sends, b), a) == Asks(step, a, b)
  {
    hide Perform, For;
    HeardExactly(s, step, b);
    var heard := Hears(s, step, b);
    if step.Receive? && step.msg.P2PSignal? {
      assert ConnAt(s, a) && ConnAt(s, b);
      assert heard != [] ==> heard[1..] == [];
    } else {
      forall i | 0 <= i < |heard| ensures !heard[i].P2PSignal? { HearsCaused(s, step, b, i); }
      hide Hears;
      NoSignals(heard, a);
    }
    hide Inv;
  }

  // ------------------------------------------------------------------- notices

  /** Whoever is on the list after the step and was not before, as a member of the room. */
  ghost predicate NewlyBanned(s: Core, t: Core, k: Str, x: Id) {
    k in s.rooms && k in t.rooms && x in s.rooms[k].members && x !in s.rooms[k].banned && x in t.rooms[k].banned
  }

  /** A ban list grows only by an honoured ban, and by exactly its target. */
  lemma BanListGrows(s: Core, step: Step, k: Str, x: Id)
    requires Inv(s) && Enabled(s, step) && NewlyBanned(s, Perform(s, step).core, k, x)
    ensures step.Receive? && step.msg == BanMember(x) && RoomOf(s, step.c) == k && Refusal(s, step.c, step.msg) == []
  {
    hide Inv, Perform, MembersLaw, HostLaw, MemberDataLaw, Local, For, Told;
    SurvivingStep(s, step, k);
    assert FromHost(s.rooms[k], step);
    HostHome(s, k);
    if InRoom(step.msg) {
      InRoomVerdict(s, step.c, step.msg, step.code);
      PerformReceive(s, step);
      hide RoomLaw, SetKey, SetMemberKey, Evicted, Writable;
    } else {
      HostKeepsList(s, step, k);
    }
  }

  lemma PerformReceive(s: Core, step: Step)
    requires Enabled(s, step) && step.Receive?
    ensures Perform(s, step) == Handle(s, step.c, step.msg, step.code)
  {
    hide Handle;
  }

  lemma HostHome(s: Core, k: Str)
    requires Inv(s) && k in s.rooms
    ensures s.rooms[k].host in s.conns && RoomOf(s, s.rooms[k].host) == k != []
  {
    assert RoomAt(s, k) && RoomAt(s, []);
  }

  /** What a host does at the door leaves its ban list alone. */
  lemma HostKeepsList(s: Core, step: Step, k: Str)
    requires Inv(s) && Enabled(s, step) && step.Receive? && !InRoom(step.msg) && k in s.rooms && step.c == s.rooms[k].host
    requires k in Perform(s, step).core.rooms
    ensures Perform(s, step).core.rooms[k].banned == s.rooms[k].banned
  {
    hide Inv, Kept, Depart, Welcome, ToMany, ToOne;
    HostHome(s, k);
    Departure(s, step.c, k);
  }

  /** An eviction notice is heard alone, by the target of an honoured eviction. */
  lemma NoticeHeard(s: Core, step: Step, x: Id, kick: bool)
    requires Inv(s) && Enabled(s, step)
    ensures var notice, heard := if kick then KickedByHost else BannedByHost, Hears(s, step, x);
            && (notice in heard ==> |heard| == 1)
            && (notice in heard <==>
                  && step.Receive? && step.msg == (if kick then KickMember(x) else BanMember(x))
                  && Refusal(s, step.c, step.msg) == [])
  {
    hide Inv, Hears, Refusal;
    IceKnown(s);
    var notice, heard := if kick then KickedByHost else BannedByHost, Hears(s, step, x);
    if notice in heard {
      var i :| 0 <= i < |heard| && heard[i] == notice;
      HearsCaused(s, step, x, i);
      NotRefused(s, step, x);
    }
    if step.Receive? && step.msg == (if kick then KickMember(x) else BanMember(x)) && Refusal(s, step.c, step.msg) == [] {
      EvictionTold(s, step, x);
    }
  }

  /**
   The notices are true: in every step, `x` is told BannedByHost iff the step
   puts it on a ban list, and KickedByHost iff the host's kick takes it out;
   and then it is told nothing else.
   */
  lemma NoticesAreTrue(s: Core, step: Step, x: Id)
    requires Inv(s) && Enabled(s, step)
    ensures BannedByHost in For(Perform(s, step).sends, x) <==> exists k :: NewlyBanned(s, Perform(s, step).core, k, x)
    ensures KickedByHost in For(Perform(s, step).sends, x) <==>
              step.Receive? && step.msg == KickMember(x) && Refusal(s, step.c, step.msg) == []
    ensures BannedByHost in For(Perform(s, step).sends, x) || KickedByHost in For(Perform(s, step).sends, x) ==>
              |For(Perform(s, step).sends, x)| == 1
  {
    hide Perform, For, Inv, Hears, Refusal, NewlyBanned;
    HeardExactly(s, step, x);
    NoticeHeard(s, step, x, true);
    NoticeHeard(s, step, x, false);
    if BannedByHost in Hears(s, step, x) { EvictionTold(s, step, x); }
    forall k | NewlyBanned(s, Perform(s, step).core, k, x) ensures BannedByHost in Hears(s, step, x) {
      BanListGrows(s, step, k, x);
    }
  }

  lemma IceKnown(s: Core)
    requires Inv(s)
    ensures s.cfg.ice.IceServers?
  {
  }

  /** An honoured eviction: its notice, and the list entry if it is a ban. */
  lemma EvictionTold(s: Core, step: Step, x: Id)
    requires Inv(s) && Enabled(s, step) && step.Receive? && step.msg in {KickMember(x), BanMember(x)}
    requires Refusal(s, step.c, step.msg) == []
    ensures Hears(s, step, x) == [if step.msg.KickMember? then KickedByHost else BannedByHost]
    ensures step.msg.BanMember? ==> NewlyBanned(s, Perform(s, step).core, RoomOf(s, step.c), x)
  {
    hide Perform, Inv, Digits, Without;
    InRoomVerdict(s, step.c, step.msg, step.code);
    PerformReceive(s, step);
    RoomFacts(s, RoomOf(s, step.c));
    hide Handle, For;
  }

  lemma NotRefused(s: Core, step: Step, x: Id)
    requires Enabled(s, step) && step.Receive? && (KickedByHost in Hears(s, step, x) || BannedByHost in Hears(s, step, x))
    ensures Refusal(s, step.c, step.msg) == []
  {
  }

  /** Everything queued to `b` during the run. */
  function Queued(s: Core, steps: seq<Step>, b: Id): seq<Msg> {
    if steps == [] then []
    else
      var before, last := steps[..|steps| - 1], steps[|steps| - 1];
      Queued(s, before, b)
      + if Enabled(After(s, before), last) then For(Perform(After(s, before), last).sends, b) else []
  }

  /** What `a` asked to have relayed to `b` during the run, in order. */
  function Asked(s: Core, steps: seq<Step>, a: Id, b: Id): seq<Msg> {
    if steps == [] then []
    else
      var before, last := steps[..|steps| - 1], steps[|steps| - 1];
      Asked(s, before, a, b) + if Enabled(After(s, before), last) then Asks(last, a, b) else []
  }

  predicate Roommates(s: Core, a: Id, b: Id) {
    a != b && a in s.conns && b in s.conns && RoomOf(s, a) == RoomOf(s, b) != []
  }

  /** `a` and `b` share a room until the last step of the run. */
  predicate Together(s: Core, steps: seq<Step>, a: Id, b: Id) {
    steps == [] ||
    (Together(s, steps[..|steps| - 1], a, b) && Roommates(After(s, steps[..|steps| - 1]), a, b))
  }

  /**
   Between roommates the server is a FIFO wire: the signals of `a` queued to `b`
   are exactly those `a` addressed to `b`, unchanged, in order.
   */
  lemma {:induction false} RelayIsFifo(s: Core, steps: seq<Step>, a: Id, b: Id)
    requires Inv(s) && Together(s, steps, a, b)
    ensures SignalsFrom(Queued(s, steps, b), a) == Asked(s, steps, a, b)
  {
    hide Perform, Inv, SignalsFrom;
    if steps == [] {
      NoSignals([], a);
    } else {
      var before, last := steps[..|steps| - 1], steps[|steps| - 1];
      var t := After(s, before);
      RelayIsFifo(s, before, a, b);
      AfterInv(s, before);
      if Enabled(t, last) {
        RelayStep(t, last, a, b);
        SignalsConcat(Queued(s, before, b), For(Perform(t, last).sends, b), a);
      } else {
        assert Queued(s, before, b) + [] == Queued(s, before, b);
        assert Asked(s, before, a, b) + [] == Asked(s, before, a, b);
      }
    }
  }

  // ------------------------------------------------------------------ greeting

  /** An id not yet handed out has been sent nothing. */
  lemma {:induction false} NothingBeforeAccept(s: Core, steps: seq<Step>, c: Id)
    requires Inv(s) && c >= After(s, steps).nextId
    ensures c >= s.nextId && Queued(s, steps, c) == []
  {
    hide Perform, Inv;
    if steps != [] {
      var before, last := steps[..|steps| - 1], steps[|steps| - 1];
      var t := After(s, before);
      AfterInv(s, before);
      if Enabled(t, last) { StrangerHearsNothing(t, last, c); }
      NothingBeforeAccept(s, before, c);
    }
  }

  lemma StrangerHearsNothing(t: Core, step: Step, c: Id)
    requires Inv(t) && Enabled(t, step) && c >= Perform(t, step).core.nextId
    ensures c >= t.nextId && For(Perform(t, step).sends, c) == []
  {
    NextIdGrows(t, step, c);
    Isolation(t, step, c, []);
    var k := Target(t, step);
    assert RoomAt(t, k) && ConnAt(t, c) && ConnAt(t, Sender(t, step));
    hide Perform, Inv;
  }

  lemma {:induction false} SameConfig(s: Core, steps: seq<Step>)
    requires Inv(s)
    ensures After(s, steps).cfg == s.cfg
  {
    hide Inv, Perform;
    if steps != [] {
      var before, last := steps[..|steps| - 1], steps[|steps| - 1];
      SameConfig(s, before);
      AfterInv(s, before);
      if Enabled(After(s, before), last) { Sessions(After(s, before), last, 0); }
    }
  }

  /** In every run, a room's code has the configured length, 8 if none is configured. */
  lemma CodesAreSized(cfg: Config, steps: seq<Step>, k: Str)
    requires cfg.ice.IceServers? && k in After(Init(cfg), steps).rooms
    ensures |k| == if cfg.codeLength == 0 then 8 else cfg.codeLength
  {
    hide After;
    InitInv(cfg);
    SameConfig(Init(cfg), steps);
    AfterInv(Init(cfg), steps);
    assert RoomAt(After(Init(cfg), steps), k);
  }

  /** How many connections the run has accepted. */
  function Accepts(s: Core, steps: seq<Step>): nat {
    if steps == [] then 0
    else
      var before, last := steps[..|steps| - 1], steps[|steps| - 1];
      Accepts(s, before) + if last.Accept? && Enabled(After(s, before), last) then 1 else 0
  }

  /** In every run ids are handed out one by one from 1, and never again. */
  lemma {:induction false} IdsCountUp(cfg: Config, steps: seq<Step>)
    requires cfg.ice.IceServers?
    ensures After(Init(cfg), steps).nextId == 1 + Accepts(Init(cfg), steps)
  {
    hide Inv, Perform;
    InitInv(cfg);
    if steps != [] {
      var before, last := steps[..|steps| - 1], steps[|steps| - 1];
      IdsCountUp(cfg, before);
      AfterInv(Init(cfg), before);
      if Enabled(After(Init(cfg), before), last) { Sessions(After(Init(cfg), before), last, 0); }
    }
  }

  /** Before its session starts, a connection is sent nothing. */
  lemma UnstartedHearsNothing(s: Core, step: Step, x: Id)
    requires Inv(s) && Enabled(s, step) && x in s.conns && !s.conns[x].started && step != Start(x)
    ensures For(Perform(s, step).sends, x) == []
  {
    hide Perform, For;
    Isolation(s, step, x, []);
    assert ConnAt(s, x) && RoomAt(s, Target(s, step)) && RoomAt(s, []) && ConnAt(s, s.nextId);
    hide Inv;
  }

  predicate Greets(m: Msg) {
    m.AssignClientId? || m.IceServers?
  }

  lemma LaterStepsDoNotGreet(s: Core, step: Step, x: Id)
    requires Inv(s) && Enabled(s, step) && step != Start(x)
    ensures forall i :: 0 <= i < |For(Perform(s, step).sends, x)| ==> !Greets(For(Perform(s, step).sends, x)[i])
  {
    hide Perform, For, Hears;
    HeardExactly(s, step, x);
    IceKnown(s);
    hide Inv;
    var heard := Hears(s, step, x);
    forall i | 0 <= i < |heard| ensures !Greets(heard[i]) { HearsCaused(s, step, x, i); }
  }

  lemma StartGreets(s: Core, x: Id)
    requires Inv(s) && Enabled(s, Start(x))
    ensures For(Perform(s, Start(x)).sends, x) == [AssignClientId(x), s.cfg.ice]
  {
    hide Inv, Perform, For;
    HeardExactly(s, Start(x), x);
  }

  /** The greeting, once: the connection's own id, then the configured ICE servers. */
  ghost predicate Greeted(q: seq<Msg>, c: Id, ice: Msg) {
    |q| >= 2 && q[..2] == [AssignClientId(c), ice] && forall i :: 2 <= i < |q| ==> !Greets(q[i])
  }

  /**
   In every run, what is queued to a connection whose session has started begins
   with its id and the configured ICE servers, and neither is ever sent again.
   Before that it is sent nothing.
   */
  lemma {:induction false} GreetedFirst(cfg: Config, steps: seq<Step>, c: Id)
    requires cfg.ice.IceServers? && c in After(Init(cfg), steps).conns
    ensures if After(Init(cfg), steps).conns[c].started then Greeted(Queued(Init(cfg), steps, c), c, cfg.ice)
            else Queued(Init(cfg), steps, c) == []
  {
    hide Inv, Perform, For, Greets;
    InitInv(cfg);
    var s := Init(cfg);
    if steps != [] {
      var before, last := steps[..|steps| - 1], steps[|steps| - 1];
      var t := After(s, before);
      AfterInv(s, before);
      SameConfig(s, before);
      if !Enabled(t, last) {
        GreetedFirst(cfg, before, c);
        assert Queued(s, before, c) + [] == Queued(s, before, c);
      } else if last.Accept? && c == t.nextId {
        NothingBeforeAccept(s, before, c);
        Sessions(t, last, c);
        StrangerUnstarted(t, c);
        AcceptTellsNobody(t, c);
      } else {
        Sessions(t, last, c);
        GreetedFirst(cfg, before, c);
        if last == Start(c) {
          StartGreets(t, c);
          assert [] + [AssignClientId(c), cfg.ice] == [AssignClientId(c), cfg.ice];
        } else {
          LaterStepsDoNotGreet(t, last, c);
          if !t.conns[c].started { UnstartedHearsNothing(t, last, c); }
        }
      }
    }
  }

  lemma StrangerUnstarted(s: Core, c: Id)
    requires Inv(s) && c == s.nextId
    ensures c !in s.conns
  {
    assert ConnAt(s, c);
  }

  lemma AcceptTellsNobody(s: Core, c: Id)
    requires Inv(s) && Enabled(s, Accept)
    ensures For(Perform(s, Accept).sends, c) == []
  {
    hide Inv, Perform, For;
    HeardExactly(s, Accept, c);
  }
}
