/** The dispatch loop of the bridge: review events taken from the hand-off
    queue in arrival order, filtered by the project-to-job map, and turned into
    one Jenkins trigger call each. The outbound HTTP POST is modelled by
    appending the call's URL to an outbox. */
module Dispatch {
  import opened Wrappers
  import opened Text
  import opened Template

  /** One review event, reduced to the fields the dispatch loop reads:
      the top-level `project`, `change.number`, `patchSet.number`,
      `change.status` and the optional `change.private` flag. */
  datatype Event = Event(project: string, changeNumber: nat, patchsetNumber: nat,
                         status: string, private: Option<bool>)

  /** The static project-to-job map of the source. */
  const TestJobs: map<string, string> :=
    map["LineageOS/lineage_wiki" := "lineage-wiki-preview",
        "LineageOS/www" := "lineage-www-preview",
        "LineageOS/hudson" := "lineage-hudson-validator"]

  /** The visibility token sent as STATUS: `PRIVATE` exactly when the change
      carries a `private` key whose value is true, `NEW` when the key is absent
      or false. The change's own status plays no part. */
  function StatusToken(private: Option<bool>): (t: string)
    ensures ValidStatus(t)
    ensures t == "PRIVATE" <==> private == Some(true)
    ensures t == "NEW" <==> private != Some(true)
  {
    if private.Some? && private.value then "PRIVATE" else "NEW"
  }

  /** The trigger call for an event of a mapped project. */
  function CallUrl(jobs: map<string, string>, e: Event): (url: string)
    requires e.project in jobs
  {
    BuildUrl(TriggerRequest(jobs[e.project], e.changeNumber, e.patchsetNumber, StatusToken(e.private)))
  }

  /** What handling one event sends: one call when its project is mapped,
      nothing otherwise. */
  function DispatchEvent(jobs: map<string, string>, e: Event): (call: Option<string>)
    ensures call.Some? <==> e.project in jobs
  {
    if e.project in jobs then Some(CallUrl(jobs, e)) else None
  }

  /** The call of an event carries the mapped job, the change and patchset
      numbers and the visibility token, as the URL reads back. */
  lemma DispatchReadsBack(jobs: map<string, string>, e: Event)
    requires e.project in jobs
    ensures DispatchEvent(jobs, e).Some?
    ensures ParseUrl(DispatchEvent(jobs, e).value) ==
      Some(TriggerRequest(jobs[e.project], e.changeNumber, e.patchsetNumber, StatusToken(e.private)))
  {
    ParseBuildUrl(TriggerRequest(jobs[e.project], e.changeNumber, e.patchsetNumber, StatusToken(e.private)));
  }

  /** The calls sent while handling `events` one after the other. */
  function DispatchAll(jobs: map<string, string>, events: seq<Event>): (calls: seq<string>)
    ensures |calls| <= |events|
  {
    if events == [] then [] else DispatchEvent(jobs, events[0]).ToSeq() + DispatchAll(jobs, events[1..])
  }

  /** The events of mapped projects, in queue order. */
  function Matching(jobs: map<string, string>, events: seq<Event>): (m: seq<Event>)
    ensures |m| <= |events|
    ensures forall i :: 0 <= i < |m| ==> m[i] in events && m[i].project in jobs
  {
    if events == [] then []
    else if events[0].project in jobs then [events[0]] + Matching(jobs, events[1..])
    else Matching(jobs, events[1..])
  }

  /** The positions in `events` that hold an event of a mapped project. */
  function MatchingIndices(jobs: map<string, string>, events: seq<Event>): (indices: set<int>) {
    set i | 0 <= i < |events| && events[i].project in jobs
  }

  /** Changing the event's own status never changes what is sent. */
  lemma DispatchIgnoresStatus(jobs: map<string, string>, e: Event, status: string)
    ensures DispatchEvent(jobs, e.(status := status)) == DispatchEvent(jobs, e)
  {
  }

  /** Handling a queue sends exactly the calls of its matching events, one
      each, in queue order. */
  lemma {:induction false} DispatchAllIsMatchingCalls(jobs: map<string, string>, events: seq<Event>)
    ensures var m := Matching(jobs, events);
      |DispatchAll(jobs, events)| == |m| &&
      forall i :: 0 <= i < |m| ==> DispatchAll(jobs, events)[i] == CallUrl(jobs, m[i])
  {
    if events != [] {
      var rest := events[1..];
      DispatchAllIsMatchingCalls(jobs, rest);
      var m, calls := Matching(jobs, events), DispatchAll(jobs, events);
      if events[0].project in jobs {
        assert m == [events[0]] + Matching(jobs, rest);
        assert calls == [CallUrl(jobs, events[0])] + DispatchAll(jobs, rest);
      } else {
        assert m == Matching(jobs, rest);
        assert calls == DispatchAll(jobs, rest);
      }
    }
  }

  /** The mapped events kept by the filter are exactly as many as the mapped
      positions of the queue. */
  lemma MatchingCount(jobs: map<string, string>, events: seq<Event>)
    ensures |Matching(jobs, events)| == |MatchingIndices(jobs, events)|
  {
    DispatchAllIsMatchingCalls(jobs, events);
    DispatchAllCount(jobs, events);
  }

  /** Handling one batch and then another sends what handling them as one
      queue sends. */
  lemma {:induction false} DispatchAllConcat(jobs: map<string, string>, a: seq<Event>, b: seq<Event>)
    ensures DispatchAll(jobs, a + b) == DispatchAll(jobs, a) + DispatchAll(jobs, b)
  {
    if a == [] {
      assert a + b == b;
    } else {
      assert (a + b)[0] == a[0] && (a + b)[1..] == a[1..] + b;
      DispatchAllConcat(jobs, a[1..], b);
      var head := DispatchEvent(jobs, a[0]).ToSeq();
      assert DispatchAll(jobs, a + b) == head + DispatchAll(jobs, a[1..] + b);
      assert DispatchAll(jobs, a) == head + DispatchAll(jobs, a[1..]);
      AppendAssociative(head, DispatchAll(jobs, a[1..]), DispatchAll(jobs, b));
    }
  }

  lemma AppendAssociative<T>(a: seq<T>, b: seq<T>, c: seq<T>)
    ensures a + (b + c) == (a + b) + c
  {
  }

  /** Events of unmapped projects cause no call at all. */
  lemma {:induction false} NoCallsForUnmappedProjects(jobs: map<string, string>, events: seq<Event>)
    requires forall i :: 0 <= i < |events| ==> events[i].project !in jobs
    ensures DispatchAll(jobs, events) == []
  {
    if events != [] {
      NoCallsForUnmappedProjects(jobs, events[1..]);
    }
  }

  /** Queueing one more event adds one call exactly when its project is mapped. */
  lemma CallsOfSnoc(jobs: map<string, string>, init: seq<Event>, e: Event)
    ensures |DispatchAll(jobs, init + [e])| == |DispatchAll(jobs, init)| + (if e.project in jobs then 1 else 0)
  {
    DispatchAllConcat(jobs, init, [e]);
    DispatchAllSingle(jobs, e);
  }

  /** Queueing one more event adds its position exactly when its project is mapped. */
  lemma MatchingIndicesOfSnoc(jobs: map<string, string>, init: seq<Event>, e: Event)
    ensures MatchingIndices(jobs, init + [e]) ==
      MatchingIndices(jobs, init) + (if e.project in jobs then {|init|} else {})
  {
    var events := init + [e];
    forall i | 0 <= i < |init| ensures events[i] == init[i] {
    }
    assert events[|init|] == e;
  }

  /** The number of calls is the number of queued events whose project is mapped. */
  lemma {:induction false} DispatchAllCount(jobs: map<string, string>, events: seq<Event>)
    ensures |DispatchAll(jobs, events)| == |MatchingIndices(jobs, events)|
    decreases |events|
  {
    if events != [] {
      var n := |events| - 1;
      var init, last := events[..n], events[n];
      assert events == init + [last];
      DispatchAllCount(jobs, init);
      CallsOfSnoc(jobs, init, last);
      MatchingIndicesOfSnoc(jobs, init, last);
      assert n !in MatchingIndices(jobs, init);
    }
  }

  /** The call of a matching event comes right after the calls of all the
      events queued before it. */
  lemma CallPosition(jobs: map<string, string>, events: seq<Event>, i: nat)
    requires i < |events| && events[i].project in jobs
    ensures var k := |DispatchAll(jobs, events[..i])|;
      k < |DispatchAll(jobs, events)| && DispatchAll(jobs, events)[k] == CallUrl(jobs, events[i])
  {
    var rest := events[i..];
    assert events == events[..i] + rest;
    DispatchAllConcat(jobs, events[..i], rest);
  }

  /** Calls leave in the order their events were queued. */
  lemma CallsInQueueOrder(jobs: map<string, string>, events: seq<Event>, i: nat, j: nat)
    requires i < j <= |events| && events[i].project in jobs
    ensures |DispatchAll(jobs, events[..i])| < |DispatchAll(jobs, events[..j])|
  {
    var prefix := events[..j];
    assert prefix[..i] == events[..i];
    CallPosition(jobs, prefix, i);
  }

  /** The example event of the source: project LineageOS/lineage_wiki,
      change 212887, patchset 3, status NEW, private true. */
  const ExampleEvent: Event := Event("LineageOS/lineage_wiki", 212887, 3, "NEW", Some(true))

  /** Handling a one-event queue sends that event's call, if any. */
  lemma DispatchAllSingle(jobs: map<string, string>, e: Event)
    ensures DispatchAll(jobs, [e]) == DispatchEvent(jobs, e).ToSeq()
  {
    assert [e][1..] == [];
  }

  lemma ExampleNumbers()
    ensures NatToString(212887) == "212887" && NatToString(3) == "3"
  {
  }

  /** The example event yields exactly one call, with STATUS=PRIVATE. */
  lemma ExampleEventCall()
    ensures DispatchAll(TestJobs, [ExampleEvent]) ==
      ["https://jenkins.harryyoud.co.uk/job/" + "lineage-wiki-preview"
       + "/buildWithParameters?token=TOKEN_GOES_HERE&CHANGE=" + "212887"
       + "&PATCHSET=" + "3" + "&STATUS=" + "PRIVATE" + "&SILENT=false"]
  {
    DispatchAllSingle(TestJobs, ExampleEvent);
    BuildUrlFields(TriggerRequest("lineage-wiki-preview", 212887, 3, "PRIVATE"));
    ExampleNumbers();
  }

  lemma ScenarioNumbers()
    ensures NatToString(500) == "500" && NatToString(2) == "2"
  {
  }

  /** A public change of a mapped project gets STATUS=NEW. */
  lemma PublicChangeCall()
    ensures DispatchAll(TestJobs, [Event("LineageOS/www", 500, 2, "NEW", Some(false))]) ==
      ["https://jenkins.harryyoud.co.uk/job/" + "lineage-www-preview"
       + "/buildWithParameters?token=TOKEN_GOES_HERE&CHANGE=" + "500"
       + "&PATCHSET=" + "2" + "&STATUS=" + "NEW" + "&SILENT=false"]
  {
    DispatchAllSingle(TestJobs, Event("LineageOS/www", 500, 2, "NEW", Some(false)));
    BuildUrlFields(TriggerRequest("lineage-www-preview", 500, 2, "NEW"));
    ScenarioNumbers();
  }

  /** With the source's job map, exactly the three LineageOS projects cause a
      call, each to its own job. */
  lemma TestJobsRouting(e: Event)
    ensures DispatchEvent(TestJobs, e).Some? <==>
      e.project == "LineageOS/lineage_wiki" || e.project == "LineageOS/www" || e.project == "LineageOS/hudson"
    ensures e.project == "LineageOS/lineage_wiki" ==> TestJobs[e.project] == "lineage-wiki-preview"
    ensures e.project == "LineageOS/www" ==> TestJobs[e.project] == "lineage-www-preview"
    ensures e.project == "LineageOS/hudson" ==> TestJobs[e.project] == "lineage-hudson-validator"
  {
  }

  /** The same change under a project missing from the map gets no call. */
  lemma UnmappedProjectNoCall()
    ensures DispatchAll(TestJobs, [Event("Other/repo", 500, 2, "NEW", Some(false))]) == []
  {
    DispatchAllSingle(TestJobs, Event("Other/repo", 500, 2, "NEW", Some(false)));
  }

  /** The consumer side of the bridge: the hand-off queue it drains, the
      static job map, and the calls it has sent so far. `received` records
      every event the producer has handed over. */
  class Dispatcher {
    const jobs: map<string, string>
    var queue: seq<Event>
    var outbox: seq<string>
    ghost var received: seq<Event>

    /** However the producer's puts and the loop's turns interleave, the calls
        already sent followed by the calls the queue will cause are the calls
        of everything received, in the order it was received. */
    ghost predicate Consistent()
      reads this
    {
      outbox + DispatchAll(jobs, queue) == DispatchAll(jobs, received)
    }

    constructor (jobs: map<string, string>)
      ensures this.jobs == jobs && queue == [] && outbox == [] && received == []
      ensures Consistent()
    {
      this.jobs := jobs;
      queue := [];
      outbox := [];
      received := [];
    }

    /** The producer's hand-off: append one decoded event. */
    method Put(e: Event)
      modifies this
      ensures queue == old(queue) + [e] && outbox == old(outbox) && received == old(received) + [e]
      ensures old(Consistent()) ==> Consistent()
    {
      ghost var pending := queue;
      queue := queue + [e];
      received := received + [e];
      DispatchAllConcat(jobs, pending, [e]);
      DispatchAllConcat(jobs, old(received), [e]);
      AppendAssociative(outbox, DispatchAll(jobs, pending), DispatchAll(jobs, [e]));
    }

    /** Take the oldest event. The source blocks while the queue is empty;
        here the consumer only takes from a non-empty queue. */
    method Get() returns (e: Event)
      requires queue != []
      modifies this
      ensures e == old(queue)[0] && queue == old(queue)[1..] && outbox == old(outbox)
      ensures received == old(received)
    {
      e := queue[0];
      queue := queue[1..];
    }

    /** One turn of the dispatch loop. */
    method Step()
      requires queue != []
      modifies this
      ensures queue == old(queue)[1..] && received == old(received)
      ensures outbox == old(outbox) + DispatchEvent(jobs, old(queue)[0]).ToSeq()
      ensures old(Consistent()) ==> Consistent()
    {
      ghost var pending := queue;
      var event := Get();
      if event.project in jobs {
        var url := BuildUrl(TriggerRequest(jobs[event.project], event.changeNumber,
                                           event.patchsetNumber, StatusToken(event.private)));
        outbox := outbox + [url];
      }
      ghost var calls := DispatchEvent(jobs, pending[0]).ToSeq();
      assert DispatchAll(jobs, pending) == calls + DispatchAll(jobs, queue);
      AppendAssociative(old(outbox), calls, DispatchAll(jobs, queue));
    }

    /** Run the dispatch loop until the queue is drained. */
    method RunAll()
      modifies this
      ensures queue == [] && received == old(received)
      ensures outbox == old(outbox) + DispatchAll(jobs, old(queue))
      ensures old(Consistent()) ==> outbox == DispatchAll(jobs, received)
    {
      while queue != []
        invariant received == old(received)
        invariant old(outbox) + DispatchAll(jobs, old(queue)) == outbox + DispatchAll(jobs, queue)
        decreases |queue|
      {
        ghost var pending, sent := queue, outbox;
        Step();
        ghost var calls := DispatchEvent(jobs, pending[0]).ToSeq();
        assert DispatchAll(jobs, pending) == calls + DispatchAll(jobs, queue);
        AppendAssociative(sent, calls, DispatchAll(jobs, queue));
      }
      assert outbox + DispatchAll(jobs, queue) == outbox;
    }
  }

  /** Events handed through a fresh queue come out in the order they went in. */
  method HandOff(events: seq<Event>) returns (received: seq<Event>)
    ensures received == events
  {
    var d := new Dispatcher(map[]);
    var i := 0;
    while i < |events|
      invariant i <= |events| && d.queue == events[..i]
    {
      d.Put(events[i]);
      assert events[..i + 1] == events[..i] + [events[i]];
      i := i + 1;
    }
    received := [];
    while d.queue != []
      invariant received + d.queue == events
      decreases |d.queue|
    {
      var e := d.Get();
      received := received + [e];
    }
  }
}
