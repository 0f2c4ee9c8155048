/** The in-process session event log (io_iii/api/_bus.py) and the streams that read it
    (the `generate` loop of `api_session_stream`, io_iii/api/app.py). */
module EventBus {
  import opened Values

  datatype Event = Event(kind: string, data: Value)

  type Logs = map<string, seq<Event>>

  const STREAM_CLOSE_EVENT := "__stream_close__"
  const SSE_KEEPALIVE_EVERY := 30

  function LogOf(logs: Logs, id: string): seq<Event> {
    if id in logs then logs[id] else []
  }

  /** `list(events[cursor:])`: nothing when the cursor is past the end. */
  function Since(log: seq<Event>, cursor: nat): seq<Event> {
    if cursor <= |log| then log[cursor..] else []
  }

  class Bus {
    var logs: Logs

    constructor ()
      ensures logs == map[]
    {
      logs := map[];
    }

    method Publish(id: string, event: Event)
      modifies this
      ensures logs == old(logs)[id := LogOf(old(logs), id) + [event]]
    {
      if id !in logs {
        logs := logs[id := []];
      }
      logs := logs[id := logs[id] + [event]];
    }

    method GetEventsSince(id: string, cursor: nat) returns (events: seq<Event>)
      ensures events == Since(LogOf(logs, id), cursor)
    {
      var log := if id in logs then logs[id] else [];
      events := if cursor <= |log| then log[cursor..] else [];
    }

    method Clear(id: string)
      modifies this
      ensures logs == old(logs) - {id}
    {
      logs := logs - {id};
    }

    method CloseStream(id: string)
      modifies this
      ensures logs == old(logs)[id := LogOf(old(logs), id) + [Event(STREAM_CLOSE_EVENT, Dict(map[]))]]
    {
      Publish(id, Event(STREAM_CLOSE_EVENT, Dict(map[])));
    }
  }

  // ---- A stream, one atomic step at a time -------------------------------------------

  datatype Frame = State(snapshot: Value) | Sent(event: Event) | Keepalive

  /** A stream between two of its steps. `pending` is what is left of the batch it fetched last; `polls`
      records of each poll whether it found anything, and `final` the log as it was when the stream ended. */
  datatype Stream = Stream(
    session: string,
    cursor: nat,
    idlePolls: nat,
    frames: seq<Frame>,
    pending: seq<Event>,
    closed: bool,
    polls: seq<bool>,
    final: seq<Event>)
  {
    /** Wake up and ask the bus, once the batch is used up. */
    function Fetch(log: seq<Event>): Stream {
      if closed || pending != [] then this
      else
        var batch := Since(log, cursor);
        if batch != [] then this.(idlePolls := 0, pending := batch, polls := polls + [true])
        else if idlePolls + 1 >= SSE_KEEPALIVE_EVERY
        then this.(idlePolls := 0, frames := frames + [Keepalive], polls := polls + [false])
        else this.(idlePolls := idlePolls + 1, polls := polls + [false])
    }

    /** Take the next event of the batch; the sentinel ends the stream without a frame. */
    function Deliver(log: seq<Event>): Stream {
      if closed || pending == [] then this
      else if pending[0].kind == STREAM_CLOSE_EVENT
      then this.(cursor := cursor + 1, pending := [], closed := true, final := log)
      else this.(cursor := cursor + 1, pending := pending[1..], frames := frames + [Sent(pending[0])])
    }

    function DeliverAll(log: seq<Event>): Stream
      decreases |pending|
    {
      if closed || pending == [] then this else Deliver(log).DeliverAll(log)
    }
  }

  /** A new stream; the snapshot is missing when reading it raised. */
  function Connected(session: string, snapshot: Option<Value>): Stream {
    Stream(session, 0, 0, if snapshot.Some? then [State(snapshot.value)] else [], [], false, [], [])
  }

  /** The body of the loop: one poll, and the whole batch delivered. */
  class Generator {
    const session: string
    var cursor: nat
    var idlePolls: nat
    var frames: seq<Frame>
    var closed: bool
    ghost var polls: seq<bool>
    ghost var final: seq<Event>

    ghost function View(): Stream
      reads this
    {
      Stream(session, cursor, idlePolls, frames, [], closed, polls, final)
    }

    constructor (session: string, snapshot: Option<Value>)
      ensures View() == Connected(session, snapshot)
    {
      this.session := session;
      cursor, idlePolls, closed, polls, final := 0, 0, false, [], [];
      frames := if snapshot.Some? then [State(snapshot.value)] else [];
    }

    /** One pass of the loop is a fetch followed by deliveries until the batch is used up or the stream ends. */
    method Poll(bus: Bus)
      requires !closed
      modifies this
      ensures var log := LogOf(bus.logs, session);
              View() == old(View()).Fetch(log).DeliverAll(log)
    {
      ghost var log := LogOf(bus.logs, session);
      var events := bus.GetEventsSince(session, cursor);
      if events != [] {
        idlePolls := 0;
        polls := polls + [true];
        var i := 0;
        while i < |events|
          invariant 0 <= i <= |events|
          invariant !closed
          invariant View().(pending := events[i..]).DeliverAll(log) == old(View()).Fetch(log).DeliverAll(log)
        {
          cursor := cursor + 1;
          if events[i].kind == STREAM_CLOSE_EVENT {
            closed, final := true, log;
            return;
          }
          frames := frames + [Sent(events[i])];
          assert events[i..][1..] == events[i + 1..];
          i := i + 1;
        }
      } else {
        idlePolls := idlePolls + 1;
        polls := polls + [false];
        if idlePolls >= SSE_KEEPALIVE_EVERY {
          idlePolls := 0;
          frames := frames + [Keepalive];
        }
      }
    }
  }

  // ---- Any number of publishers and streams ------------------------------------------------

  datatype Action =
    | Publish(session: string, event: Event)
    | Clear(session: string)
    | Connect(stream: nat, session: string, snapshot: Option<Value>)
    | Fetch(stream: nat)
    | Deliver(stream: nat)

  datatype System = System(logs: Logs, streams: map<nat, Stream>)

  function Step(s: System, a: Action): System {
    match a
    case Publish(id, event) => s.(logs := s.logs[id := LogOf(s.logs, id) + [event]])
    case Clear(id) => s.(logs := s.logs - {id})
    case Connect(n, id, snapshot) =>
      if n in s.streams then s else s.(streams := s.streams[n := Connected(id, snapshot)])
    case Fetch(n) =>
      if n !in s.streams then s
      else s.(streams := s.streams[n := s.streams[n].Fetch(LogOf(s.logs, s.streams[n].session))])
    case Deliver(n) =>
      if n !in s.streams then s
      else s.(streams := s.streams[n := s.streams[n].Deliver(LogOf(s.logs, s.streams[n].session))])
  }

  /** Any interleaving, from the empty bus. */
  function After(actions: seq<Action>): System {
    if actions == [] then System(map[], map[])
    else Step(After(actions[..|actions| - 1]), actions[|actions| - 1])
  }

  // What a stream has said, event by event.

  function EventsIn(frames: seq<Frame>): seq<Event> {
    if frames == [] then []
    else EventsIn(frames[..|frames| - 1]) + if frames[|frames| - 1].Sent? then [frames[|frames| - 1].event] else []
  }

  function Keepalives(frames: seq<Frame>): nat {
    if frames == [] then 0 else Keepalives(frames[..|frames| - 1]) + if frames[|frames| - 1].Keepalive? then 1 else 0
  }

  predicate NoSentinel(log: seq<Event>) {
    forall i | 0 <= i < |log| :: log[i].kind != STREAM_CLOSE_EVENT
  }

  /** The empty polls since the last one that found something. */
  function TrailingEmpty(polls: seq<bool>): nat {
    if polls == [] || polls[|polls| - 1] then 0 else 1 + TrailingEmpty(polls[..|polls| - 1])
  }

  /** The polls that complete thirty consecutive empty ones. */
  function FullSilences(polls: seq<bool>): nat {
    if polls == [] then 0
    else
      FullSilences(polls[..|polls| - 1]) +
      if TrailingEmpty(polls) > 0 && TrailingEmpty(polls) % SSE_KEEPALIVE_EVERY == 0 then 1 else 0
  }

  /** A live stream has sent the log up to its cursor, an ended one the log as it was then, in front of
      the first sentinel. */
  ghost predicate Faithful(s: Stream, current: seq<Event>) {
    var log := if s.closed then s.final else current;
    && s.cursor <= |log|
    && s.pending <= log[s.cursor..]
    && (s.closed ==> s.cursor > 0 && log[s.cursor - 1].kind == STREAM_CLOSE_EVENT)
    && EventsIn(s.frames) == log[..if s.closed then s.cursor - 1 else s.cursor]
    && NoSentinel(EventsIn(s.frames))
  }

  /** The idle count is the silence so far, and one keepalive went out for every full silence. */
  ghost predicate Timely(s: Stream) {
    && s.idlePolls == TrailingEmpty(s.polls) % SSE_KEEPALIVE_EVERY
    && Keepalives(s.frames) == FullSilences(s.polls)
  }

  lemma OneMoreFrame(frames: seq<Frame>, f: Frame)
    ensures EventsIn(frames + [f]) == EventsIn(frames) + if f.Sent? then [f.event] else []
    ensures Keepalives(frames + [f]) == Keepalives(frames) + if f.Keepalive? then 1 else 0
  {
    assert (frames + [f])[..|frames|] == frames;
  }

  lemma OneMorePoll(polls: seq<bool>, found: bool)
    ensures TrailingEmpty(polls + [found]) == if found then 0 else TrailingEmpty(polls) + 1
    ensures FullSilences(polls + [found]) ==
            FullSilences(polls) + if !found && (TrailingEmpty(polls) + 1) % SSE_KEEPALIVE_EVERY == 0 then 1 else 0
  {
    assert (polls + [found])[..|polls|] == polls;
  }

  lemma OneMoreIdle(t: nat)
    ensures (t + 1) % SSE_KEEPALIVE_EVERY ==
            if t % SSE_KEEPALIVE_EVERY + 1 >= SSE_KEEPALIVE_EVERY then 0 else t % SSE_KEEPALIVE_EVERY + 1
  {
  }

  lemma FetchStaysFaithful(s: Stream, log: seq<Event>)
    requires Faithful(s, log)
    ensures Faithful(s.Fetch(log), log)
  {
    hide EventsIn, NoSentinel;
    OneMoreFrame(s.frames, Keepalive);
    var t := s.Fetch(log);
    if s.closed {
      assert t == s;
    } else {
      assert t.cursor == s.cursor && !t.closed;
      assert EventsIn(t.frames) == EventsIn(s.frames);
      assert t.pending <= log[t.cursor..];
    }
  }

  lemma FetchStaysTimely(s: Stream, log: seq<Event>)
    requires Timely(s)
    ensures Timely(s.Fetch(log))
  {
    hide EventsIn, Keepalives, FullSilences, TrailingEmpty;
    OneMoreFrame(s.frames, Keepalive);
    OneMorePoll(s.polls, Since(log, s.cursor) != []);
    OneMoreIdle(TrailingEmpty(s.polls));
  }

  lemma DeliverKeeps(s: Stream, log: seq<Event>)
    requires Faithful(s, log)
    ensures Faithful(s.Deliver(log), log)
    ensures Timely(s) ==> Timely(s.Deliver(log))
  {
    if !s.closed && s.pending != [] {
      var e := s.pending[0];
      OneMoreFrame(s.frames, Sent(e));
      assert e == log[s.cursor];
      assert log[..s.cursor + 1] == log[..s.cursor] + [e];
      assert s.pending[1..] <= log[s.cursor + 1..];
    }
  }

  lemma LongerLogKeeps(s: Stream, log: seq<Event>, more: seq<Event>)
    requires Faithful(s, log)
    ensures Faithful(s, log + more)
  {
    if !s.closed {
      assert (log + more)[s.cursor..] == log[s.cursor..] + more;
      assert (log + more)[..s.cursor] == log[..s.cursor];
    }
  }

  lemma NewStreamIsGood(id: string, snapshot: Option<Value>, log: seq<Event>)
    ensures Faithful(Connected(id, snapshot), log) && Timely(Connected(id, snapshot))
  {
    if snapshot.Some? {
      OneMoreFrame([], State(snapshot.value));
      assert [] + [State(snapshot.value)] == [State(snapshot.value)];
    }
  }

  /** A clear takes nothing from this stream: it has ended, or has taken and fetched nothing yet. */
  predicate Unaffected(s: Stream) {
    s.closed || (s.cursor == 0 && s.pending == [])
  }

  /** Clearing the log keeps a stream faithful exactly if it has ended or taken nothing from it. */
  lemma ClearKeepsIff(s: Stream, log: seq<Event>)
    requires Faithful(s, log)
    ensures Faithful(s, []) <==> Unaffected(s)
  {
    assert s.cursor == 0 ==> log[..0] == [];
  }

  ghost predicate Good(s: System, n: nat)
    requires n in s.streams
  {
    Faithful(s.streams[n], LogOf(s.logs, s.streams[n].session)) && Timely(s.streams[n])
  }

  ghost predicate AllGood(s: System) {
    forall n | n in s.streams :: Good(s, n)
  }

  /** The next step does not clear a log that a live stream has taken something from. */
  ghost predicate ClearsOnlyUnaffected(s: System, a: Action) {
    a.Clear? ==> forall n | n in s.streams && s.streams[n].session == a.session :: Unaffected(s.streams[n])
  }

  lemma StepKeeps(s: System, a: Action, n: nat)
    requires n in Step(s, a).streams
    requires n in s.streams ==> Good(s, n)
    requires a.Clear? && n in s.streams && s.streams[n].session == a.session ==> Unaffected(s.streams[n])
    ensures Good(Step(s, a), n)
  {
    hide Faithful, Timely, Connected;
    if n in s.streams {
      var stream := s.streams[n];
      var log := LogOf(s.logs, stream.session);
      match a {
        case Publish(id, event) =>
          if id == stream.session {
            LongerLogKeeps(stream, log, [event]);
          }
        case Clear(id) =>
          ClearKeepsIff(stream, log);
        case Fetch(m) =>
          FetchStaysFaithful(stream, log);
          FetchStaysTimely(stream, log);
        case Deliver(m) => DeliverKeeps(stream, log);
        case Connect(_, _, _) =>
      }
    } else {
      NewStreamIsGood(a.session, a.snapshot, LogOf(s.logs, Connected(a.session, a.snapshot).session));
    }
  }

  /** One step keeps all streams faithful exactly if it is not the clear of a log a live stream has read. */
  lemma StepKeepsAllIff(s: System, a: Action)
    requires AllGood(s)
    ensures AllGood(Step(s, a)) <==> ClearsOnlyUnaffected(s, a)
  {
    hide Faithful, Timely, Connected, Unaffected;
    if ClearsOnlyUnaffected(s, a) {
      forall n | n in Step(s, a).streams
        ensures Good(Step(s, a), n)
      {
        StepKeeps(s, a, n);
      }
    } else {
      var n :| n in s.streams && s.streams[n].session == a.session && !Unaffected(s.streams[n]);
      assert Good(s, n);
      ClearKeepsIff(s.streams[n], LogOf(s.logs, a.session));
      assert !Good(Step(s, a), n);
    }
  }

  /** No action of a run clears a log that a live stream has taken something from. */
  ghost predicate ClearsAreHarmless(actions: seq<Action>)
    decreases |actions|
  {
    actions != [] ==>
      && ClearsAreHarmless(actions[..|actions| - 1])
      && ClearsOnlyUnaffected(After(actions[..|actions| - 1]), actions[|actions| - 1])
  }

  /** All streams are faithful in every state a run goes through. */
  ghost predicate AlwaysGood(actions: seq<Action>)
    decreases |actions|
  {
    AllGood(After(actions)) && (actions != [] ==> AlwaysGood(actions[..|actions| - 1]))
  }

  /** Under any interleaving of publishers, clears and streams, the following holds of all streams in
      all states exactly if no clear meets a live stream that has taken something from the log: a live
      stream has sent exactly the events in front of its cursor, in order; an ended one exactly those in
      front of the first sentinel; and keepalives went out exactly at the polls that completed thirty empty
      ones in a row. */
  lemma {:induction false} StreamsAreFaithfulIff(actions: seq<Action>)
    ensures AlwaysGood(actions) <==> ClearsAreHarmless(actions)
    decreases |actions|
  {
    hide AllGood, ClearsOnlyUnaffected, Step;
    if actions == [] {
      NoStreams();
    } else {
      var before := actions[..|actions| - 1];
      StreamsAreFaithfulIff(before);
      if AlwaysGood(before) {
        StepKeepsAllIff(After(before), actions[|actions| - 1]);
      }
    }
  }

  lemma NoStreams()
    ensures AllGood(After([]))
  {
  }

  lemma {:induction false} WithoutClears(actions: seq<Action>)
    requires forall i | 0 <= i < |actions| :: !actions[i].Clear?
    ensures ClearsAreHarmless(actions)
    decreases |actions|
  {
    if actions != [] {
      WithoutClears(actions[..|actions| - 1]);
    }
  }

  /** As long as nobody clears a log, and in the code nobody does, every stream is faithful. */
  lemma StreamsAreFaithful(actions: seq<Action>, n: nat)
    requires forall i | 0 <= i < |actions| :: !actions[i].Clear?
    requires n in After(actions).streams
    ensures Good(After(actions), n)
  {
    hide Good, Step, After;
    WithoutClears(actions);
    StreamsAreFaithfulIff(actions);
  }

  lemma {:induction false} DeliverAllDrains(s: Stream, log: seq<Event>)
    requires Faithful(s, log) && !s.closed && s.pending == log[s.cursor..]
    ensures var t := s.DeliverAll(log);
            Faithful(t, log) && t.session == s.session && (if t.closed then t.final == log else t.cursor == |log|)
    decreases |s.pending|
  {
    if s.pending != [] {
      DeliverKeeps(s, log);
      var t := s.Deliver(log);
      if !t.closed {
        assert t.pending == log[t.cursor..];
        DeliverAllDrains(t, log);
      }
    }
  }

  /** One poll of a live stream catches up: it has then sent the whole log if the log holds no
      sentinel, and otherwise it has ended in front of the first one. */
  lemma PollCatchesUp(s: Stream, log: seq<Event>)
    requires Faithful(s, log) && !s.closed && s.pending == []
    ensures var t := s.Fetch(log).DeliverAll(log);
            && (NoSentinel(log) ==> !t.closed && EventsIn(t.frames) == log)
            && (!NoSentinel(log) ==>
                  t.closed && 0 < t.cursor <= |log| && EventsIn(t.frames) == log[..t.cursor - 1]
                  && NoSentinel(log[..t.cursor - 1]) && log[t.cursor - 1].kind == STREAM_CLOSE_EVENT)
  {
    FetchStaysFaithful(s, log);
    var f := s.Fetch(log);
    DeliverAllDrains(f, log);
    var t := f.DeliverAll(log);
    assert log[..|log|] == log;
    assert t.closed ==> !NoSentinel(log);
  }

  lemma OneMoreAction(actions: seq<Action>, a: Action)
    ensures After(actions + [a]) == Step(After(actions), a)
  {
    assert (actions + [a])[..|actions|] == actions;
  }

  /** Four steps at a time. */
  lemma FourMoreActions(actions: seq<Action>, a: Action, b: Action, c: Action, d: Action)
    ensures After(actions + [a, b, c, d]) == Step(Step(Step(Step(After(actions), a), b), c), d)
  {
    hide Step, After;
    OneMoreAction(actions, a);
    OneMoreAction(actions + [a], b);
    OneMoreAction(actions + [a] + [b], c);
    OneMoreAction(actions + [a] + [b] + [c], d);
    assert actions + [a, b, c, d] == actions + [a] + [b] + [c] + [d];
  }

  /** A stream that has sent one event. */
  function AfterOne(event: Event): Stream {
    Stream("s", 1, 0, [Sent(event)], [], false, [true], [])
  }

  lemma SendsOne(first: Event)
    requires first.kind != STREAM_CLOSE_EVENT
    ensures After([Connect(0, "s", None), Publish("s", first), Fetch(0), Deliver(0)]) ==
            System(map["s" := [first]], map[0 := AfterOne(first)])
    ensures EventsIn(AfterOne(first).frames) == [first]
  {
    var opening := [Connect(0, "s", None), Publish("s", first), Fetch(0), Deliver(0)];
    FourMoreActions([], Connect(0, "s", None), Publish("s", first), Fetch(0), Deliver(0));
    assert [] + opening == opening;
    OneMoreFrame([], Sent(first));
    assert [] + [Sent(first)] == [Sent(first)];
    var start := Connected("s", None);
    var fetched := start.Fetch([first]);
    assert fetched.Deliver([first]) == AfterOne(first);
    var s := System(map["s" := [first]], map[0 := start]);
    assert Step(Step(After([]), Connect(0, "s", None)), Publish("s", first)) == s by {
      assert [] + [first] == [first];
      assert map[]["s" := [first]] == map["s" := [first]] && map[][0 := start] == map[0 := start];
    }
    assert Step(s, Fetch(0)).streams == map[0 := fetched];
    assert Step(Step(s, Fetch(0)), Deliver(0)).streams == map[0 := AfterOne(first)];
  }

  lemma SkipsNext(first: Event, next: Event)
    ensures var s := System(map["s" := [first]], map[0 := AfterOne(first)]);
            Step(Step(Step(Step(s, Clear("s")), Publish("s", next)), Fetch(0)), Deliver(0)) ==
            System(map["s" := [next]], map[0 := AfterOne(first).(idlePolls := 1, polls := [true, false])])
  {
    var s := System(map["s" := [first]], map[0 := AfterOne(first)]);
    var idle := AfterOne(first).(idlePolls := 1, polls := [true, false]);
    assert AfterOne(first).Fetch([next]) == idle == idle.Deliver([next]) by {
      assert [true] + [false] == [true, false];
    }
    var republished := Step(Step(s, Clear("s")), Publish("s", next));
    assert republished.logs == map["s" := [next]] by {
      assert [] + [next] == [next];
    }
    assert Step(republished, Fetch(0)).streams == map[0 := idle];
    assert Step(Step(republished, Fetch(0)), Deliver(0)).streams == map[0 := idle];
  }

  /** A run with a clear that breaks this: the stream has sent one event, the log is cleared, another
      event is published, and the stream's next poll skips it. */
  lemma ClearSkipsEvents(first: Event, next: Event)
    requires first.kind != STREAM_CLOSE_EVENT && first != next
    ensures var end := After([Connect(0, "s", None), Publish("s", first), Fetch(0), Deliver(0),
                              Clear("s"), Publish("s", next), Fetch(0), Deliver(0)]);
            && LogOf(end.logs, "s") == [next]
            && 0 in end.streams && EventsIn(end.streams[0].frames) == [first]
            && !Good(end, 0)
  {
    hide Step, After;
    var opening := [Connect(0, "s", None), Publish("s", first), Fetch(0), Deliver(0)];
    SendsOne(first);
    FourMoreActions(opening, Clear("s"), Publish("s", next), Fetch(0), Deliver(0));
    SkipsNext(first, next);
    assert opening + [Clear("s"), Publish("s", next), Fetch(0), Deliver(0)] ==
           [Connect(0, "s", None), Publish("s", first), Fetch(0), Deliver(0),
            Clear("s"), Publish("s", next), Fetch(0), Deliver(0)];
    assert [next][..1] == [next];
  }

  // ---- The snapshot on connect -------------------------------------------------------------------

  /** A stream's frames are its snapshot, if it could be read, and then only events and keepalives. */
  predicate StartsWith(frames: seq<Frame>, snapshot: Option<Value>) {
    && (snapshot.Some? ==> frames != [] && frames[0] == State(snapshot.value))
    && forall i | (if snapshot.Some? then 1 else 0) <= i < |frames| :: !frames[i].State?
  }

  lemma StepKeepsStart(s: System, a: Action, n: nat, session: string, snapshot: Option<Value>)
    requires n in s.streams && s.streams[n].session == session && StartsWith(s.streams[n].frames, snapshot)
    ensures var t := Step(s, a);
            n in t.streams && t.streams[n].session == session && StartsWith(t.streams[n].frames, snapshot)
  {
  }

  /** Every stream begins with the snapshot it was connected with, sent exactly once, and reads the session
      it was connected to. */
  lemma {:induction false} SnapshotComesFirst(actions: seq<Action>, n: nat) returns (i: nat, snapshot: Option<Value>)
    requires n in After(actions).streams
    ensures var s := After(actions).streams[n];
            && i < |actions| && actions[i] == Connect(n, s.session, snapshot)
            && StartsWith(s.frames, snapshot)
    decreases |actions|
  {
    hide StartsWith, Step;
    assert actions != [] by { NoStreamsYet(); }
    var last := |actions| - 1;
    var before, a := actions[..last], actions[last];
    if n in After(before).streams {
      i, snapshot := SnapshotComesFirst(before, n);
      StepKeepsStart(After(before), a, n, After(before).streams[n].session, snapshot);
    } else {
      FirstConnect(After(before), a, n);
      i, snapshot := last, a.snapshot;
    }
  }

  lemma NoStreamsYet()
    ensures After([]).streams == map[]
  {
  }

  lemma FirstConnect(s: System, a: Action, n: nat)
    requires n !in s.streams && n in Step(s, a).streams
    ensures a.Connect? && a == Connect(n, Step(s, a).streams[n].session, a.snapshot)
    ensures StartsWith(Step(s, a).streams[n].frames, a.snapshot)
  {
  }
}
