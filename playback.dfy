/**
 * The playback sequencer: a daily queue of tracks and a cursor into it.
 * Each attempt labels the channel, fetches the track's stream, makes sure
 * a voice connection exists, subscribes the player and plays; any failure
 * on the way skips the track. The cursor moves by one per attempt, and
 * every restart replaces the queue and puts the cursor back to 0.
 *
 * The outside world (storage provider, chat client, voice library) is an
 * oracle: one Outcome per queue position says how each of its calls turns
 * out, and the calls the sequencer makes are recorded as Events.
 */
module Playback {

  import opened Listing
  import ChannelLabel

  /** How the outside world answers the calls made while starting one track. */
  datatype Outcome = Outcome(
    channelCached: bool,  // the connection's channel is in the client's cache, so a rename is tried
    renameOk: bool,       // channel.setName resolves; its result is caught and ignored
    streamOk: bool,       // the stream is fetched and the audio resource is created
    connDown: bool,       // the existing connection reports the status "disconnected"
    channelFound: bool,   // the fixed voice channel is in the cache when a join is needed
    subscribed: bool)     // connection.subscribe(player) returns a subscription

  /** A call the sequencer makes to the outside world. */
  datatype Event =
    | Rename(text: string)    // channel.setName(text)
    | Fetch(id: string)       // drive.files.get for the track's stream
    | Join                    // joinVoiceChannel, which replaces the connection
    | Play(track: Track)      // player.play: the track has started

  /** Whether the attempt has to join the voice channel before subscribing. */
  predicate NeedsJoin(connected: bool, o: Outcome): (b: bool)
    ensures !connected ==> b
    ensures connected ==> (b <==> o.connDown)
  {
    !connected || o.connDown
  }

  /** Whether the attempt reaches player.play without throwing. */
  predicate StartSucceeds(connected: bool, o: Outcome): (ok: bool)
    ensures ok ==> o.streamOk && o.subscribed
    ensures NeedsJoin(connected, o) && !o.channelFound ==> !ok
    ensures !NeedsJoin(connected, o) ==> (ok <==> o.streamOk && o.subscribed)
    ensures NeedsJoin(connected, o) && o.channelFound ==> (ok <==> o.streamOk && o.subscribed)
  {
    o.streamOk && (!NeedsJoin(connected, o) || o.channelFound) && o.subscribed
  }

  /** Whether `connection` holds a connection after the attempt. */
  predicate ConnectedAfter(connected: bool, o: Outcome): (c: bool)
    ensures connected ==> c
    ensures !connected ==> (c <==> o.streamOk && o.channelFound)
  {
    connected || (o.streamOk && o.channelFound)
  }

  /** Whether the attempt renames the channel before fetching. */
  predicate Renames(connected: bool, o: Outcome): (b: bool)
    ensures b ==> connected
    ensures connected ==> (b <==> o.channelCached)
  {
    connected && o.channelCached
  }

  function Plays(events: seq<Event>): seq<Track> {
    if events == [] then []
    else (if events[0].Play? then [events[0].track] else []) + Plays(events[1..])
  }

  function Fetches(events: seq<Event>): seq<string> {
    if events == [] then []
    else (if events[0].Fetch? then [events[0].id] else []) + Fetches(events[1..])
  }

  function Labels(events: seq<Event>): seq<string> {
    if events == [] then []
    else (if events[0].Rename? then [events[0].text] else []) + Labels(events[1..])
  }

  lemma {:induction false} PlaysAppend(a: seq<Event>, b: seq<Event>)
    ensures Plays(a + b) == Plays(a) + Plays(b)
    decreases |a|
  {
    if a == [] {
      assert a + b == b;
    } else {
      assert (a + b)[0] == a[0] && (a + b)[1..] == a[1..] + b;
      PlaysAppend(a[1..], b);
    }
  }

  lemma {:induction false} FetchesAppend(a: seq<Event>, b: seq<Event>)
    ensures Fetches(a + b) == Fetches(a) + Fetches(b)
    decreases |a|
  {
    if a == [] {
      assert a + b == b;
    } else {
      assert (a + b)[0] == a[0] && (a + b)[1..] == a[1..] + b;
      FetchesAppend(a[1..], b);
    }
  }

  lemma {:induction false} LabelsAppend(a: seq<Event>, b: seq<Event>)
    ensures Labels(a + b) == Labels(a) + Labels(b)
    decreases |a|
  {
    if a == [] {
      assert a + b == b;
    } else {
      assert (a + b)[0] == a[0] && (a + b)[1..] == a[1..] + b;
      LabelsAppend(a[1..], b);
    }
  }

  datatype Attempted = Attempted(events: seq<Event>, connected: bool)

  /** The calls made by one attempt to start track t, and the connection afterwards. */
  function Attempt(t: Track, o: Outcome, connected: bool): (a: Attempted)
    ensures a.events != []
    ensures Renames(connected, o) ==>
      |a.events| >= 2 && a.events[0] == Rename(ChannelLabel.StatusLabel(t.name)) && a.events[1] == Fetch(t.id)
    ensures !Renames(connected, o) ==> a.events[0] == Fetch(t.id)
    ensures a.connected == ConnectedAfter(connected, o)
  {
    var joins := o.streamOk && NeedsJoin(connected, o) && o.channelFound;
    var events :=
      (if Renames(connected, o) then [Rename(ChannelLabel.StatusLabel(t.name))] else [])
      + [Fetch(t.id)]
      + (if joins then [Join] else [])
      + (if StartSucceeds(connected, o) then [Play(t)] else []);
    Attempted(events, connected || joins)
  }

  /** The events of one attempt, split into the rename, the fetch, the join and the play. */
  lemma AttemptPieces(t: Track, o: Outcome, connected: bool)
    returns (r: seq<Event>, j: seq<Event>, p: seq<Event>)
    ensures Attempt(t, o, connected).events == r + ([Fetch(t.id)] + (j + p))
    ensures r == if Renames(connected, o) then [Rename(ChannelLabel.StatusLabel(t.name))] else []
    ensures j == [] || j == [Join]
    ensures p == if StartSucceeds(connected, o) then [Play(t)] else []
  {
    r := if Renames(connected, o) then [Rename(ChannelLabel.StatusLabel(t.name))] else [];
    j := if o.streamOk && NeedsJoin(connected, o) && o.channelFound then [Join] else [];
    p := if StartSucceeds(connected, o) then [Play(t)] else [];
  }

  /** One attempt fetches its track exactly once. */
  lemma AttemptFetches(t: Track, o: Outcome, connected: bool)
    ensures Fetches(Attempt(t, o, connected).events) == [t.id]
  {
    var r, j, p := AttemptPieces(t, o, connected);
    FetchesAppend(j, p);
    FetchesAppend([Fetch(t.id)], j + p);
    FetchesAppend(r, [Fetch(t.id)] + (j + p));
    ProjectionsOne(Fetch(t.id));
    if r != [] { ProjectionsOne(r[0]); }
    if j != [] { ProjectionsOne(j[0]); }
    if p != [] { ProjectionsOne(p[0]); }
    assert Fetches(r) == [] && Fetches(j) == [] && Fetches(p) == [];
  }

  /** One attempt tries the track's label exactly when it renames. */
  lemma AttemptLabels(t: Track, o: Outcome, connected: bool)
    ensures Labels(Attempt(t, o, connected).events) ==
      if Renames(connected, o) then [ChannelLabel.StatusLabel(t.name)] else []
  {
    var r, j, p := AttemptPieces(t, o, connected);
    LabelsAppend(j, p);
    LabelsAppend([Fetch(t.id)], j + p);
    LabelsAppend(r, [Fetch(t.id)] + (j + p));
    ProjectionsOne(Fetch(t.id));
    if r != [] { ProjectionsOne(r[0]); }
    if j != [] { ProjectionsOne(j[0]); }
    if p != [] { ProjectionsOne(p[0]); }
    assert Labels([Fetch(t.id)]) == [] && Labels(j) == [] && Labels(p) == [];
  }

  /** One attempt plays its track exactly when the start succeeds. */
  lemma AttemptPlays(t: Track, o: Outcome, connected: bool)
    ensures Plays(Attempt(t, o, connected).events) ==
      if StartSucceeds(connected, o) then [t] else []
  {
    var r, j, p := AttemptPieces(t, o, connected);
    PlaysAppend(j, p);
    PlaysAppend([Fetch(t.id)], j + p);
    PlaysAppend(r, [Fetch(t.id)] + (j + p));
    ProjectionsOne(Fetch(t.id));
    if r != [] { ProjectionsOne(r[0]); }
    if j != [] { ProjectionsOne(j[0]); }
    if p != [] { ProjectionsOne(p[0]); }
    assert Plays(r) == [] && Plays([Fetch(t.id)]) == [] && Plays(j) == [];
  }

  lemma ProjectionsOne(e: Event)
    ensures Plays([e]) == if e.Play? then [e.track] else []
    ensures Fetches([e]) == if e.Fetch? then [e.id] else []
    ensures Labels([e]) == if e.Rename? then [e.text] else []
  {
    assert [e][1..] == [];
  }

  /**
   * The calls made while the queue is played from position i to its end,
   * each started track playing to completion before the next attempt.
   */
  function Run(queue: seq<Track>, outcomes: seq<Outcome>, i: nat, connected: bool): (r: Attempted)
    requires |outcomes| == |queue| && i <= |queue|
    ensures |r.events| >= |queue| - i
    decreases |queue| - i
  {
    if i == |queue| then Attempted([], connected)
    else
      var a := Attempt(queue[i], outcomes[i], connected);
      var rest := Run(queue, outcomes, i + 1, a.connected);
      Attempted(a.events + rest.events, rest.connected)
  }

  /** A run from a position inside the queue is one attempt followed by the run from the next position. */
  lemma RunUnfold(queue: seq<Track>, outcomes: seq<Outcome>, i: nat, connected: bool)
    requires |outcomes| == |queue| && i < |queue|
    ensures var a := Attempt(queue[i], outcomes[i], connected);
      var rest := Run(queue, outcomes, i + 1, a.connected);
      Run(queue, outcomes, i, connected) == Attempted(a.events + rest.events, rest.connected)
  {
  }

  /** Appending one attempt's calls to the trace keeps the trace on course for the whole run. */
  lemma RunStep(queue: seq<Track>, outcomes: seq<Outcome>, i: nat, c: bool,
                start: seq<Event>, whole: Attempted, t: seq<Event>, t': seq<Event>, c': bool)
    requires |outcomes| == |queue| && i < |queue|
    requires start + whole.events == t + Run(queue, outcomes, i, c).events
    requires whole.connected == Run(queue, outcomes, i, c).connected
    requires t' == t + Attempt(queue[i], outcomes[i], c).events
    requires c' == Attempt(queue[i], outcomes[i], c).connected
    ensures start + whole.events == t' + Run(queue, outcomes, i + 1, c').events
    ensures whole.connected == Run(queue, outcomes, i + 1, c').connected
  {
    RunUnfold(queue, outcomes, i, c);
    var a := Attempt(queue[i], outcomes[i], c);
    var rest := Run(queue, outcomes, i + 1, c').events;
    assert t + (a.events + rest) == t' + rest;
  }

  /**
   * Reference definition of the tracks that start: those of queue[i..]
   * whose attempt gets through to player.play, the connection carried over
   * from one attempt to the next.
   */
  function Started(queue: seq<Track>, outcomes: seq<Outcome>, i: nat, connected: bool): (r: seq<Track>)
    requires |outcomes| == |queue| && i <= |queue|
    ensures |r| <= |queue| - i
    ensures forall k | 0 <= k < |r| :: r[k] in queue[i..]
    decreases |queue| - i
  {
    if i == |queue| then []
    else
      var rest := Started(queue, outcomes, i + 1, ConnectedAfter(connected, outcomes[i]));
      assert forall k | 0 <= k < |rest| :: rest[k] in queue[i..] by {
        assert queue[i..] == [queue[i]] + queue[i + 1..];
      }
      (if StartSucceeds(connected, outcomes[i]) then [queue[i]] else []) + rest
  }

  /** Tracks of queue[i..] whose stream opens and whose subscription succeeds. */
  function Healthy(queue: seq<Track>, outcomes: seq<Outcome>, i: nat): (r: seq<Track>)
    requires |outcomes| == |queue| && i <= |queue|
    decreases |queue| - i
  {
    if i == |queue| then []
    else
      (if outcomes[i].streamOk && outcomes[i].subscribed then [queue[i]] else [])
      + Healthy(queue, outcomes, i + 1)
  }

  /** Every track from the cursor to the end is fetched exactly once, in queue order. */
  lemma {:induction false} RunFetchesEachTrackOnce(queue: seq<Track>, outcomes: seq<Outcome>, i: nat, connected: bool)
    requires |outcomes| == |queue| && i <= |queue|
    ensures |Fetches(Run(queue, outcomes, i, connected).events)| == |queue| - i
    ensures forall k | 0 <= k < |queue| - i ::
      Fetches(Run(queue, outcomes, i, connected).events)[k] == queue[i + k].id
    decreases |queue| - i
  {
    if i < |queue| {
      var a := Attempt(queue[i], outcomes[i], connected);
      var rest := Run(queue, outcomes, i + 1, a.connected);
      FetchesAppend(a.events, rest.events);
      AttemptFetches(queue[i], outcomes[i], connected);
      RunFetchesEachTrackOnce(queue, outcomes, i + 1, a.connected);
    }
  }

  /** The tracks played during a run are exactly the tracks whose start succeeds, in queue order. */
  lemma {:induction false} RunPlaysStarted(queue: seq<Track>, outcomes: seq<Outcome>, i: nat, connected: bool)
    requires |outcomes| == |queue| && i <= |queue|
    ensures Plays(Run(queue, outcomes, i, connected).events) == Started(queue, outcomes, i, connected)
    decreases |queue| - i
  {
    if i < |queue| {
      var a := Attempt(queue[i], outcomes[i], connected);
      var rest := Run(queue, outcomes, i + 1, a.connected);
      PlaysAppend(a.events, rest.events);
      AttemptPlays(queue[i], outcomes[i], connected);
      RunPlaysStarted(queue, outcomes, i + 1, a.connected);
    }
  }

  /**
   * While the connection stays up, a track starts exactly when its stream
   * opens and the player subscribes.
   */
  lemma {:induction false} StartedWhileConnected(queue: seq<Track>, outcomes: seq<Outcome>, i: nat)
    requires |outcomes| == |queue| && i <= |queue|
    requires forall k | i <= k < |queue| :: !outcomes[k].connDown
    ensures Started(queue, outcomes, i, true) == Healthy(queue, outcomes, i)
    decreases |queue| - i
  {
    if i < |queue| {
      StartedWhileConnected(queue, outcomes, i + 1);
    }
  }

  /**
   * Without a connection and with the voice channel missing, every attempt
   * is skipped like a failed stream: nothing plays and no connection appears.
   */
  lemma {:induction false} RunWithoutChannel(queue: seq<Track>, outcomes: seq<Outcome>, i: nat)
    requires |outcomes| == |queue| && i <= |queue|
    requires forall k | i <= k < |queue| :: !outcomes[k].channelFound
    ensures Plays(Run(queue, outcomes, i, false).events) == []
    ensures !Run(queue, outcomes, i, false).connected
    decreases |queue| - i
  {
    if i < |queue| {
      var a := Attempt(queue[i], outcomes[i], false);
      var rest := Run(queue, outcomes, i + 1, a.connected);
      PlaysAppend(a.events, rest.events);
      AttemptPlays(queue[i], outcomes[i], false);
      RunWithoutChannel(queue, outcomes, i + 1);
    }
  }

  /** The status label of each track, in order. */
  function QueueLabels(tracks: seq<Track>): seq<string> {
    if tracks == [] then []
    else [ChannelLabel.StatusLabel(tracks[0].name)] + QueueLabels(tracks[1..])
  }

  /**
   * With a connection whose channel is cached, the label of every track
   * from the cursor on is tried, whether or not the track then starts.
   */
  lemma {:induction false} RunLabelsEachTrack(queue: seq<Track>, outcomes: seq<Outcome>, i: nat)
    requires |outcomes| == |queue| && i <= |queue|
    requires forall k | i <= k < |queue| :: outcomes[k].channelCached
    ensures Labels(Run(queue, outcomes, i, true).events) == QueueLabels(queue[i..])
    decreases |queue| - i
  {
    if i < |queue| {
      var a := Attempt(queue[i], outcomes[i], true);
      var rest := Run(queue, outcomes, i + 1, a.connected);
      LabelsAppend(a.events, rest.events);
      AttemptLabels(queue[i], outcomes[i], true);
      RunLabelsEachTrack(queue, outcomes, i + 1);
      assert queue[i..][1..] == queue[i + 1..];
    }
  }

  /** Once a connection exists, the run ends with one; otherwise only a join creates one. */
  lemma {:induction false} RunConnection(queue: seq<Track>, outcomes: seq<Outcome>, i: nat, connected: bool)
    requires |outcomes| == |queue| && i <= |queue|
    ensures Run(queue, outcomes, i, connected).connected <==>
      connected || exists k :: i <= k < |queue| && outcomes[k].streamOk && outcomes[k].channelFound
    decreases |queue| - i
  {
    if i < |queue| {
      RunConnection(queue, outcomes, i + 1, ConnectedAfter(connected, outcomes[i]));
    }
  }

  /** The outcome of the rename is never consulted. */
  lemma RenameOutcomeIgnored(t: Track, o: Outcome, connected: bool)
    ensures Attempt(t, o, connected) == Attempt(t, o.(renameOk := !o.renameOk), connected)
  {
  }

  /** Three tracks, the second of which cannot be fetched: the first and third play. */
  lemma {:induction false} SecondOfThreeFails(t1: Track, t2: Track, t3: Track)
    ensures var good := Outcome(true, true, true, false, true, true);
            var bad := good.(streamOk := false);
            Plays(Run([t1, t2, t3], [good, bad, good], 0, true).events) == [t1, t3]
  {
    var good := Outcome(true, true, true, false, true, true);
    var bad := good.(streamOk := false);
    var q, o := [t1, t2, t3], [good, bad, good];
    RunPlaysStarted(q, o, 0, true);
    assert Started(q, o, 3, true) == [];
    assert Started(q, o, 2, true) == [t3];
    assert Started(q, o, 1, true) == [t3];
  }

  /**
   * The module-level state of the bot: the daily queue, the cursor into it,
   * whether `connection` holds a voice connection, and the calls made so far.
   */
  class Sequencer {
    var queue: seq<Track>
    var index: nat
    var connected: bool
    var trace: seq<Event>

    /** The cursor never passes the end of the queue. */
    ghost predicate Valid()
      reads this
    {
      index <= |queue|
    }

    /** The state before the bot is ready: an empty queue, cursor 0, no connection. */
    constructor ()
      ensures Valid()
      ensures queue == [] && index == 0 && !connected && trace == []
    {
      queue := [];
      index := 0;
      connected := false;
      trace := [];
    }

    /**
     * One pass through playNext: nothing at all once the queue is done;
     * otherwise one attempt at the track under the cursor, and the cursor
     * moves on by one, whether the attempt failed or the track played to
     * its end.
     */
    method Step(o: Outcome)
      requires Valid()
      modifies this
      ensures Valid() && queue == old(queue)
      ensures old(index) == |queue| ==>
        index == old(index) && connected == old(connected) && trace == old(trace)
      ensures old(index) < |queue| ==>
        var a := Attempt(queue[old(index)], o, old(connected));
        index == old(index) + 1 && trace == old(trace) + a.events && connected == a.connected
    {
      if index >= |queue| {
        return;
      }
      var track := queue[index];
      var renamed: seq<Event> := [];
      if connected && o.channelCached {
        renamed := [Rename(ChannelLabel.StatusLabel(track.name))];
      }
      var ok := o.streamOk;
      var joined: seq<Event> := [];
      if ok && (!connected || o.connDown) {
        if o.channelFound {
          connected := true;
          joined := [Join];
        } else {
          ok := false;
        }
      }
      if ok && !o.subscribed {
        ok := false;
      }
      var played: seq<Event> := [];
      if ok {
        played := [Play(track)];
      }
      trace := trace + (renamed + [Fetch(track.id)] + joined + played);
      index := index + 1;
    }

    /**
     * playNext followed through to the end of the queue, each started track
     * finishing before the next step; outcomes[k] answers the attempt at
     * position k.
     */
    method PlayNext(outcomes: seq<Outcome>)
      requires Valid() && |outcomes| == |queue|
      modifies this
      ensures Valid() && queue == old(queue) && index == |queue|
      ensures var r := Run(queue, outcomes, old(index), old(connected));
        trace == old(trace) + r.events && connected == r.connected
    {
      ghost var whole := Run(queue, outcomes, index, connected);
      while index < |queue|
        invariant Valid() && queue == old(queue)
        invariant old(index) <= index
        invariant old(trace) + whole.events == trace + Run(queue, outcomes, index, connected).events
        invariant whole.connected == Run(queue, outcomes, index, connected).connected
        decreases |queue| - index
      {
        ghost var i, c, t := index, connected, trace;
        Step(outcomes[index]);
        RunStep(queue, outcomes, i, c, old(trace), whole, t, trace, connected);
      }
    }

    /** dailyQueue = await getRandomTracks(20); index = 0. */
    method Restart(listing: seq<Track>, shuffled: seq<Track>)
      requires multiset(shuffled) == multiset(listing)
      modifies this
      ensures Valid()
      ensures queue == RandomTracks(listing, DailyCount, shuffled) && index == 0
      ensures |queue| == Min(|listing|, DailyCount)
      ensures connected == old(connected) && trace == old(trace)
    {
      queue := RandomTracks(listing, DailyCount, shuffled);
      index := 0;
    }

    /**
     * playMusic: join the voice channel (the wait for "ready" is assumed to
     * end), draw a fresh queue, and play it from the start.
     */
    method PlayMusic(listing: seq<Track>, shuffled: seq<Track>, outcomes: seq<Outcome>)
      requires multiset(shuffled) == multiset(listing)
      requires |outcomes| == Min(|listing|, DailyCount)
      modifies this
      ensures Valid() && queue == RandomTracks(listing, DailyCount, shuffled) && index == |queue|
      ensures var r := Run(queue, outcomes, 0, true);
        trace == old(trace) + [Join] + r.events && connected == r.connected
    {
      connected := true;
      trace := trace + [Join];
      Restart(listing, shuffled);
      PlayNext(outcomes);
    }

    /** The daily schedule's callback: a fresh queue, played from the start on the current connection. */
    method DailyRefresh(listing: seq<Track>, shuffled: seq<Track>, outcomes: seq<Outcome>)
      requires multiset(shuffled) == multiset(listing)
      requires |outcomes| == Min(|listing|, DailyCount)
      modifies this
      ensures Valid() && queue == RandomTracks(listing, DailyCount, shuffled) && index == |queue|
      ensures var r := Run(queue, outcomes, 0, old(connected));
        trace == old(trace) + r.events && connected == r.connected
    {
      Restart(listing, shuffled);
      PlayNext(outcomes);
    }

    /**
     * The "disconnected" handler: the old connection is destroyed (the
     * variable keeps it) and, if the voice channel is in the cache, playMusic
     * starts over with a fresh queue; it never resumes the old cursor.
     */
    method OnDisconnect(channelFound: bool, listing: seq<Track>, shuffled: seq<Track>, outcomes: seq<Outcome>)
      requires Valid()
      requires multiset(shuffled) == multiset(listing)
      requires |outcomes| == Min(|listing|, DailyCount)
      modifies this
      ensures Valid()
      ensures !channelFound ==>
        queue == old(queue) && index == old(index) && connected == old(connected) && trace == old(trace)
      ensures channelFound ==> queue == RandomTracks(listing, DailyCount, shuffled) && index == |queue|
      ensures channelFound ==>
        var r := Run(queue, outcomes, 0, true);
        trace == old(trace) + [Join] + r.events && connected == r.connected
    {
      if channelFound {
        PlayMusic(listing, shuffled, outcomes);
      }
    }
  }

  /** A client of the sequencer: three tracks, the second of which cannot be fetched. */
  method SkipExample(t1: Track, t2: Track, t3: Track) returns (played: seq<Track>, cursor: nat)
    ensures played == [t1, t3] && cursor == 3
  {
    var good := Outcome(true, true, true, false, true, true);
    var bad := good.(streamOk := false);
    var s := new Sequencer();
    s.PlayMusic([t1, t2, t3], [t1, t2, t3], [good, bad, good]);
    SecondOfThreeFails(t1, t2, t3);
    played := Plays(s.trace[1..]);
    cursor := s.index;
  }
}
