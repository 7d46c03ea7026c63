/**
 What holds of the streams stored under batons after any requests, sweeps and
 shutdowns: every open connection is accounted for, spent batons stay spent, and an
 abandoned stream is closed in time.
 */
module HttpTheorems {
  import opened NativeTypes
  import Executor
  import Pipelines
  import opened HttpStreams

  // ── Invariants ──

  ghost predicate OneBatonEach<S>(s: Server<S>) {
    forall a, b :: a in s.entries && b in s.entries && a != b ==> s.entries[a].stream != s.entries[b].stream
  }

  ghost predicate IsStored<S>(s: Server<S>, stream: nat) {
    exists b :: b in s.entries && s.entries[b].stream == stream
  }

  /** Every open stream is stored, and no stream is stored twice. */
  ghost predicate Sound<S>(s: Server<S>) {
    && InRange(s)
    && OneBatonEach(s)
    && forall i :: 0 <= i < |s.streams| && !s.streams[i].closed ==> IsStored(s, i)
  }

  ghost predicate StoredAreOpen<S>(s: Server<S>) {
    forall b :: b in s.entries ==> s.entries[b].stream < |s.streams| && !s.streams[s.entries[b].stream].closed
  }

  /** And every stored stream is open. */
  ghost predicate Tidy<S>(s: Server<S>) {
    Sound(s) && StoredAreOpen(s)
  }

  function OpenStreams<S>(s: Server<S>): set<nat> {
    set i: nat | i < |s.streams| && !s.streams[i].closed
  }

  function Stored(entries: map<Baton, BatonEntry>): set<nat> {
    set b | b in entries :: entries[b].stream
  }

  lemma {:induction false} AsManyStreamsAsBatons(entries: map<Baton, BatonEntry>)
    requires forall a, b :: a in entries && b in entries && a != b ==> entries[a].stream != entries[b].stream
    ensures |Stored(entries)| == |entries|
    decreases |entries|
  {
    if entries == map[] {
      assert Stored(entries) == {};
    } else {
      var b :| b in entries;
      var rest := entries - {b};
      assert entries.Keys == rest.Keys + {b};
      AsManyStreamsAsBatons(rest);
      StoredApart(entries, b);
    }
  }

  lemma StoredApart(entries: map<Baton, BatonEntry>, b: Baton)
    requires b in entries
    requires forall a :: a in entries && a != b ==> entries[a].stream != entries[b].stream
    ensures Stored(entries) == Stored(entries - {b}) + {entries[b].stream}
    ensures entries[b].stream !in Stored(entries - {b})
  {
    var rest := entries - {b};
    forall x | x in Stored(entries) ensures x in Stored(rest) + {entries[b].stream} {
      var a :| a in entries && entries[a].stream == x;
      if a != b { assert a in rest && rest[a].stream == x; }
    }
    forall x | x in Stored(rest) ensures x in Stored(entries) && x != entries[b].stream {
      var a :| a in rest && rest[a].stream == x;
      assert entries[a] == rest[a];
    }
  }

  /**
   Connections opened less connections closed are the stored batons: no more of them when
   the server is sound, and exactly as many when every stored stream is open.
   */
  lemma ConnectionsBalance<S>(s: Server<S>)
    requires Sound(s)
    ensures |OpenStreams(s)| <= |s.entries|
    ensures |OpenStreams(s)| == |s.entries| <==> StoredAreOpen(s)
  {
    AsManyStreamsAsBatons(s.entries);
    var open, stored := OpenStreams(s), Stored(s.entries);
    assert open <= stored;
    SubsetSizes(open, stored);
    if StoredAreOpen(s) { assert open == stored; }
    if open == stored {
      forall b | b in s.entries ensures !s.streams[s.entries[b].stream].closed { assert s.entries[b].stream in stored; }
    }
  }

  lemma {:induction false} SubsetSizes(a: set<nat>, b: set<nat>)
    requires a <= b
    ensures |a| <= |b|
    ensures |a| == |b| ==> a == b
    decreases a
  {
    if a != {} {
      var x :| x in a;
      SubsetSizes(a - {x}, b - {x});
    }
  }

  // ── One request ──

  function Generated(op: Op): Option<Baton> {
    if op.Pipeline? || op.Cursor? then op.head.generated else None
  }

  /** The baton generated for a request, if any, is not in use. */
  predicate NewBaton<S>(s: Server<S>, op: Op) {
    Generated(op).Some? ==> Generated(op).value !in s.entries
  }

  /** While a request runs on a stream, everything but that stream is as it should be. */
  ghost predicate SoundBut<S>(s: Server<S>, stream: nat, prior: Option<Baton>) {
    && stream < |s.streams|
    && InRange(s)
    && OneBatonEach(s)
    && (prior.Some? ==> prior.value in s.entries && s.entries[prior.value].stream == stream)
    && (forall b :: b in s.entries && s.entries[b].stream == stream ==> prior == Some(b))
    && forall i :: 0 <= i < |s.streams| && i != stream && !s.streams[i].closed ==> IsStored(s, i)
  }

  lemma ResolvedIsSound<S>(s: Server<S>, head: Head)
    requires Sound(s)
    ensures var r := Resolve(s, head);
      r.Got? ==> SoundBut(r.server, r.stream, OldBaton(head))
                 && (StoredAreOpen(s) ==> StoredAreOpen(r.server) && !r.server.streams[r.stream].closed)
                 && r.server.entries.Keys == s.entries.Keys
  {
    var r := Resolve(s, head);
    if r.Got? {
      forall i | 0 <= i < |r.server.streams| && i != r.stream && !r.server.streams[i].closed
        ensures IsStored(r.server, i)
      {
        assert s.streams[i] == r.server.streams[i];
        var b :| b in s.entries && s.entries[b].stream == i;
        assert r.server.entries[b].stream == i;
      }
      if OldBaton(head).None? { assert r.server.entries == s.entries; }
    }
  }

  lemma RanIsSound<S>(s: Server<S>, stream: nat, prior: Option<Baton>, here: Pipelines.Here<S>)
    requires SoundBut(s, stream, prior)
    ensures SoundBut(Ran(s, stream, here), stream, prior)
    ensures StoredAreOpen(s) ==> StoredAreOpen(Ran(s, stream, here))
    ensures Ran(s, stream, here).streams[stream].closed == s.streams[stream].closed
  {
    var s' := Ran(s, stream, here);
    forall i | 0 <= i < |s'.streams| && i != stream && !s'.streams[i].closed ensures IsStored(s', i) {
      assert IsStored(s, i);
    }
  }

  lemma PutIsSound<S>(s: Server<S>, stream: nat, prior: Option<Baton>, rotated: Baton, now: int)
    requires SoundBut(s, stream, prior) && rotated !in s.entries
    ensures Sound(Put(s, stream, prior, rotated, now))
    ensures StoredAreOpen(s) && !s.streams[stream].closed ==> StoredAreOpen(Put(s, stream, prior, rotated, now))
  {
    var s' := Put(s, stream, prior, rotated, now);
    forall i | 0 <= i < |s'.streams| && !s'.streams[i].closed ensures IsStored(s', i) {
      if i == stream {
        assert rotated in s'.entries && s'.entries[rotated].stream == stream;
      } else {
        var b :| b in s.entries && s.entries[b].stream == i;
        assert b in s'.entries && s'.entries[b] == s.entries[b];
      }
    }
  }

  lemma CloseIsSound<S>(s: Server<S>, stream: nat, prior: Option<Baton>)
    requires SoundBut(s, stream, prior)
    ensures var s' := CloseStream(s, stream);
      && Sound(s')
      && (StoredAreOpen(s) ==> (StoredAreOpen(s') <==> prior.None?))
  {
    var s' := CloseStream(s, stream);
    forall i | 0 <= i < |s'.streams| && !s'.streams[i].closed ensures IsStored(s', i) {
      assert IsStored(s, i);
    }
  }

  lemma CloseAndForgetIsSound<S>(s: Server<S>, stream: nat, prior: Option<Baton>)
    requires SoundBut(s, stream, prior) && prior.Some?
    ensures var s' := CloseStream(s, stream);
      var s'' := s'.(entries := s'.entries - {prior.value});
      Sound(s'') && (StoredAreOpen(s) ==> StoredAreOpen(s''))
  {
    var s' := CloseStream(s, stream);
    var s'' := s'.(entries := s'.entries - {prior.value});
    forall i | 0 <= i < |s''.streams| && !s''.streams[i].closed ensures IsStored(s'', i) {
      var b :| b in s.entries && s.entries[b].stream == i;
      assert b in s''.entries;
    }
  }

  lemma EvictIsSound<S>(s: Server<S>, batons: set<Baton>)
    requires Sound(s)
    ensures Sound(Evict(s, batons))
    ensures StoredAreOpen(s) ==> StoredAreOpen(Evict(s, batons))
  {
    var s' := Evict(s, batons);
    forall i | 0 <= i < |s'.streams| && !s'.streams[i].closed ensures IsStored(s', i) {
      var b :| b in s.entries && s.entries[b].stream == i;
      assert b !in batons;
      assert b in s'.entries;
    }
  }

  /**
   A request leaves its stream closed but still stored when it came with a valid baton, no
   new one could be generated, and its own requests had not closed the stream.
   */
  predicate LeavesClosedStored<S>(s: Server<S>, op: Op) {
    match op
    case Pipeline(head, requests) =>
      var prior := OldBaton(head);
      prior.Some? && prior.value in s.entries && head.generated.None? && Pipelines.Close !in requests
    case Cursor(head, _, _) =>
      var prior := OldBaton(head);
      prior.Some? && prior.value in s.entries && head.generated.None?
    case _ => false
  }

  lemma PipelineIsSound<S>(conn: nat -> Env<S>, s: Server<S>, head: Head, requests: seq<Pipelines.Request>)
    requires Sound(s) && (head.generated.Some? ==> head.generated.value !in s.entries)
    ensures var s' := HandlePipeline(conn, s, head, requests).0;
      Sound(s') && (StoredAreOpen(s) ==> (StoredAreOpen(s') <==> !LeavesClosedStored(s, Pipeline(head, requests))))
  {
    hide Sound, SoundBut, StoredAreOpen, Pipelines.RunPipeline, EnvOf, Ran, CloseStream, Put;
    ResolvedIsSound(s, head);
    var r := Resolve(s, head);
    if r.Got? {
      var prior := OldBaton(head);
      SoundButInRange(r.server, r.stream, prior);
      var o := RunOn(conn, r.server, r.stream, requests);
      PipelineCloses(conn, r.server, r.stream, requests);
      RanIsSound(r.server, r.stream, prior, o.here);
      var s2 := Ran(r.server, r.stream, o.here);
      CloseIsSound(s2, r.stream, prior);
      if prior.Some? { CloseAndForgetIsSound(s2, r.stream, prior); }
      assert s2.entries.Keys == s.entries.Keys by { RanKeepsEntries(r.server, r.stream, o.here); }
      if head.generated.Some? { PutIsSound(s2, r.stream, prior, head.generated.value, head.now); }
    }
  }

  lemma SoundButInRange<S>(s: Server<S>, stream: nat, prior: Option<Baton>)
    requires SoundBut(s, stream, prior)
    ensures stream < |s.streams|
  {
  }

  lemma RanKeepsEntries<S>(s: Server<S>, stream: nat, here: Pipelines.Here<S>)
    requires stream < |s.streams|
    ensures Ran(s, stream, here).entries == s.entries
  {
  }

  lemma PipelineCloses<S>(conn: nat -> Env<S>, s: Server<S>, stream: nat, requests: seq<Pipelines.Request>)
    requires stream < |s.streams|
    ensures RunOn(conn, s, stream, requests).closed <==> Pipelines.Close in requests
  {
    var st := s.streams[stream];
    Pipelines.ClosedByAClose(EnvOf(conn, stream, st), Pipelines.Here(s.state, st.stored), requests, false);
  }

  lemma CursorIsSound<S>(conn: nat -> Env<S>, s: Server<S>, head: Head, steps: seq<Executor.Step>, headerSent: bool)
    requires Sound(s) && (head.generated.Some? ==> head.generated.value !in s.entries)
    ensures var s' := HandleCursor(conn, s, head, steps, headerSent).0;
      Sound(s') && (StoredAreOpen(s) ==> (StoredAreOpen(s') <==> !LeavesClosedStored(s, Cursor(head, steps, headerSent))))
  {
    hide SoundBut, StoredAreOpen, Sound, Executor.RunCursor, EnvOf, CloseStream;
    ResolvedIsSound(s, head);
    var r := Resolve(s, head);
    if r.Got? {
      var prior := OldBaton(head);
      SoundButInRange(r.server, r.stream, prior);
      CloseIsSound(r.server, r.stream, prior);
      if head.generated.Some? {
        PutIsSound(r.server, r.stream, prior, head.generated.value, head.now);
        var s2 := Put(r.server, r.stream, prior, head.generated.value, head.now);
        var s3 := HandleCursor(conn, s, head, steps, headerSent).0;
        StateIsNoMatter(s2, s3);
      }
    }
  }

  lemma StateIsNoMatter<S>(s: Server<S>, s': Server<S>)
    requires s'.streams == s.streams && s'.entries == s.entries
    ensures Sound(s') == Sound(s) && StoredAreOpen(s') == StoredAreOpen(s)
  {
    assert forall i: nat :: IsStored(s, i) == IsStored(s', i);
  }

  /**
   Soundness survives everything, even a failure to generate a baton. Tidiness survives
   exactly when no request leaves its closed stream stored.
   */
  lemma RequestsKeepSound<S>(conn: nat -> Env<S>, ttl: int, s: Server<S>, op: Op)
    requires Sound(s) && NewBaton(s, op)
    ensures Sound(Apply(conn, ttl, s, op).0)
    ensures StoredAreOpen(s) ==> (StoredAreOpen(Apply(conn, ttl, s, op).0) <==> !LeavesClosedStored(s, op))
  {
    hide Sound, StoredAreOpen, HandlePipeline, HandleCursor;
    match op
    case Pipeline(head, requests) => PipelineIsSound(conn, s, head, requests);
    case Cursor(head, steps, headerSent) => CursorIsSound(conn, s, head, steps, headerSent);
    case Sweep(now) => EvictIsSound(s, Expired(s, ttl, now));
    case Shutdown => EvictIsSound(s, s.entries.Keys);
  }

  /** Shutting down closes every connection that is open. */
  lemma ShutdownClosesEverything<S>(conn: nat -> Env<S>, ttl: int, s: Server<S>, i: nat)
    requires Sound(s) && i < |s.streams|
    ensures var s' := Apply(conn, ttl, s, Shutdown).0;
      s'.entries == map[] && |s'.streams| == |s.streams| && s'.streams[i].closed
  {
    if !s.streams[i].closed { assert IsStored(s, i); }
  }

  /** A sweep that was already under way when the store was closed finds nothing to do. */
  lemma SweepAfterShutdown<S>(conn: nat -> Env<S>, ttl: int, s: Server<S>, now: int)
    ensures var down := Apply(conn, ttl, s, Shutdown).0; Apply(conn, ttl, down, Sweep(now)).0 == down
  {
    var down := Apply(conn, ttl, s, Shutdown).0;
    assert Expired(down, ttl, now) == {};
    EvictNone(down);
  }
}
