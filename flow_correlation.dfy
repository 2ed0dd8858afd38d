/**
 * The host-to-device flow join of `get_acl_to_npu_data`.
 *
 * Pass one records, last write winning, flow id -> host timestamp from the
 * flow-start events and unique id -> flow id from the flow-end events. Pass
 * two appends every "X" event whose unique id resolves through both tables to
 * the list kept under the host timestamp it resolves to.
 */
module FlowCorrelation {
  import opened Wrappers

  /** What an `EventBean` says about its phase. */
  datatype EventKind = FlowStart | FlowEnd | X | Other

  /** The fields of an `EventBean` that the join reads. */
  datatype Event = Event(kind: EventKind, id: int, uniqueId: int, ts: int)

  type AclTable = map<int, seq<Event>>

  /** `flow_start_dict` after pass one over events: flow id -> timestamp. */
  function FlowStarts(events: seq<Event>): map<int, int>
    decreases |events|
  {
    if events == [] then map[]
    else
      var before := FlowStarts(events[..|events| - 1]);
      var e := events[|events| - 1];
      if e.kind == FlowStart then before[e.id := e.ts] else before
  }

  /** `flow_end_dict` after pass one over events: unique id -> flow id. */
  function FlowEnds(events: seq<Event>): map<int, int>
    decreases |events|
  {
    if events == [] then map[]
    else
      var before := FlowEnds(events[..|events| - 1]);
      var e := events[|events| - 1];
      if e.kind == FlowEnd then before[e.uniqueId := e.id] else before
  }

  /** The host timestamp an event is attached to, if it is an X event whose flow resolves. */
  function Resolve(e: Event, starts: map<int, int>, ends: map<int, int>): Option<int> {
    if e.kind == X && e.uniqueId in ends && ends[e.uniqueId] in starts then Some(starts[ends[e.uniqueId]])
    else None
  }

  /** `acl.get(t, [])` */
  function Lookup(acl: AclTable, t: int): seq<Event> {
    if t in acl then acl[t] else []
  }

  /** Pass two over events, with `setdefault(t, []).append(e)` for each resolved event. */
  function Collect(events: seq<Event>, starts: map<int, int>, ends: map<int, int>): AclTable
    decreases |events|
  {
    if events == [] then map[]
    else
      var before := Collect(events[..|events| - 1], starts, ends);
      var e := events[|events| - 1];
      match Resolve(e, starts, ends)
      case None => before
      case Some(t) => before[t := Lookup(before, t) + [e]]
  }

  /**
   * The result of `get_acl_to_npu_data` on the loaded events: the list under
   * t is the input-order list of the events resolving to t, and t is a key
   * exactly when that list is not empty.
   */
  function AclToNpu(events: seq<Event>): (r: AclTable)
    ensures forall t :: Lookup(r, t) == Matching(events, FlowStarts(events), FlowEnds(events), t)
    ensures forall t :: t in r <==> Matching(events, FlowStarts(events), FlowEnds(events), t) != []
  {
    CollectIsMatching(events, FlowStarts(events), FlowEnds(events));
    Collect(events, FlowStarts(events), FlowEnds(events))
  }

  /** The events resolving to t, in their input order: the reference for each list. */
  function Matching(events: seq<Event>, starts: map<int, int>, ends: map<int, int>, t: int): seq<Event>
    decreases |events|
  {
    if events == [] then []
    else
      var before := Matching(events[..|events| - 1], starts, ends, t);
      var e := events[|events| - 1];
      if Resolve(e, starts, ends) == Some(t) then before + [e] else before
  }

  /** The two loops of `get_acl_to_npu_data`. */
  method CorrelateFlows(events: seq<Event>) returns (acl: AclTable)
    ensures acl == AclToNpu(events)
  {
    var flowStart: map<int, int> := map[];
    var flowEnd: map<int, int> := map[];
    var i := 0;
    while i < |events|
      invariant 0 <= i <= |events|
      invariant flowStart == FlowStarts(events[..i])
      invariant flowEnd == FlowEnds(events[..i])
    {
      var e := events[i];
      if e.kind == FlowStart {
        flowStart := flowStart[e.id := e.ts];
      } else if e.kind == FlowEnd {
        flowEnd := flowEnd[e.uniqueId := e.id];
      }
      assert events[..i + 1][..i] == events[..i];
      i := i + 1;
    }
    assert events[..i] == events;
    acl := map[];
    i := 0;
    while i < |events|
      invariant 0 <= i <= |events|
      invariant acl == Collect(events[..i], flowStart, flowEnd)
    {
      var e := events[i];
      if e.kind == X && e.uniqueId in flowEnd {
        var corrId := flowEnd[e.uniqueId];
        if corrId in flowStart {
          var aclTs := flowStart[corrId];
          acl := acl[aclTs := (if aclTs in acl then acl[aclTs] else []) + [e]];
        }
      }
      assert events[..i + 1][..i] == events[..i];
      i := i + 1;
    }
    assert events[..i] == events;
  }

  /** Each list of pass two is the input-order list of the events resolving to its key. */
  lemma {:induction false} CollectIsMatching(events: seq<Event>, starts: map<int, int>, ends: map<int, int>)
    ensures forall t :: Lookup(Collect(events, starts, ends), t) == Matching(events, starts, ends, t)
    ensures forall t :: t in Collect(events, starts, ends) <==> Matching(events, starts, ends, t) != []
    decreases |events|
  {
    if events != [] {
      CollectIsMatching(events[..|events| - 1], starts, ends);
    }
  }

  /** Filtering keeps the input order: the list for a concatenation is the concatenation of the lists. */
  lemma {:induction false} MatchingAppend(a: seq<Event>, b: seq<Event>, starts: map<int, int>, ends: map<int, int>, t: int)
    ensures Matching(a + b, starts, ends, t) == Matching(a, starts, ends, t) + Matching(b, starts, ends, t)
    decreases |b|
  {
    if b == [] {
      assert a + b == a;
    } else {
      var init := b[..|b| - 1];
      assert (a + b)[..|a + b| - 1] == a + init;
      MatchingAppend(a, init, starts, ends, t);
    }
  }

  /**
   * Every occurrence of an event that resolves to t is in t's list, and
   * nothing else is: each list holds each of its events exactly as often as
   * the input does.
   */
  lemma {:induction false} MatchingCounts(events: seq<Event>, starts: map<int, int>, ends: map<int, int>, t: int, e: Event)
    ensures multiset(Matching(events, starts, ends, t))[e] ==
            if Resolve(e, starts, ends) == Some(t) then multiset(events)[e] else 0
    decreases |events|
  {
    if events != [] {
      var init := events[..|events| - 1];
      assert events == init + [events[|events| - 1]];
      MatchingCounts(init, starts, ends, t, e);
    }
  }

  /**
   * `get_acl_to_npu_data`: an event is listed under t exactly when it is an X
   * event of the input whose unique id has a flow end whose flow id has a
   * flow start at t (both tables as built, last write winning, over the whole
   * input); it is listed there as often as it occurs in the input and under
   * no other key. Flow starts, flow ends and other events are never listed.
   */
  lemma AclToNpuPlacement(events: seq<Event>, t: int, e: Event)
    ensures var ends := FlowEnds(events);
            var starts := FlowStarts(events);
            var listed := multiset(Lookup(AclToNpu(events), t))[e];
            (listed > 0 <==> e in events && e.kind == X && e.uniqueId in ends &&
                             ends[e.uniqueId] in starts && starts[ends[e.uniqueId]] == t) &&
            (listed > 0 ==> listed == multiset(events)[e])
    ensures t in AclToNpu(events) <==> exists e' :: e' in events && Resolve(e', FlowStarts(events), FlowEnds(events)) == Some(t)
  {
    var starts, ends := FlowStarts(events), FlowEnds(events);
    CollectIsMatching(events, starts, ends);
    MatchingCounts(events, starts, ends, t, e);
    if t in AclToNpu(events) {
      var m := Matching(events, starts, ends, t);
      MatchingCounts(events, starts, ends, t, m[0]);
      assert m[0] in multiset(m);
    }
    if e' :| e' in events && Resolve(e', starts, ends) == Some(t) {
      MatchingCounts(events, starts, ends, t, e');
      assert e' in multiset(events);
    }
  }

  /** The flow-start table keeps, for each flow id, the timestamp of its last flow-start event. */
  lemma {:induction false} FlowStartsLastWins(events: seq<Event>, id: int)
    ensures id in FlowStarts(events) <==> exists i :: 0 <= i < |events| && events[i].kind == FlowStart && events[i].id == id
    ensures id in FlowStarts(events) ==>
              exists i :: 0 <= i < |events| && events[i].kind == FlowStart && events[i].id == id &&
                          FlowStarts(events)[id] == events[i].ts &&
                          forall j :: i < j < |events| ==> !(events[j].kind == FlowStart && events[j].id == id)
    decreases |events|
  {
    if events != [] {
      var n := |events| - 1;
      var init := events[..n];
      FlowStartsLastWins(init, id);
      if events[n].kind == FlowStart && events[n].id == id {
        assert FlowStarts(events)[id] == events[n].ts;
      } else {
        if i :| 0 <= i < |init| && init[i].kind == FlowStart && init[i].id == id {
          assert events[i] == init[i];
        }
        if i :| 0 <= i < |events| && events[i].kind == FlowStart && events[i].id == id {
          assert init[i] == events[i];
        }
        if id in FlowStarts(init) {
          var i :| 0 <= i < |init| && init[i].kind == FlowStart && init[i].id == id &&
                   FlowStarts(init)[id] == init[i].ts &&
                   forall j :: i < j < |init| ==> !(init[j].kind == FlowStart && init[j].id == id);
          assert events[i] == init[i];
          assert forall j :: i < j < |events| ==> !(events[j].kind == FlowStart && events[j].id == id) by {
            forall j | i < j < |events| ensures !(events[j].kind == FlowStart && events[j].id == id) {
              if j < n {
                assert events[j] == init[j];
              }
            }
          }
        }
      }
    }
  }

  /** The flow-end table keeps, for each unique id, the flow id of its last flow-end event. */
  lemma {:induction false} FlowEndsLastWins(events: seq<Event>, uid: int)
    ensures uid in FlowEnds(events) <==> exists i :: 0 <= i < |events| && events[i].kind == FlowEnd && events[i].uniqueId == uid
    ensures uid in FlowEnds(events) ==>
              exists i :: 0 <= i < |events| && events[i].kind == FlowEnd && events[i].uniqueId == uid &&
                          FlowEnds(events)[uid] == events[i].id &&
                          forall j :: i < j < |events| ==> !(events[j].kind == FlowEnd && events[j].uniqueId == uid)
    decreases |events|
  {
    if events != [] {
      var n := |events| - 1;
      var init := events[..n];
      FlowEndsLastWins(init, uid);
      if events[n].kind == FlowEnd && events[n].uniqueId == uid {
        assert FlowEnds(events)[uid] == events[n].id;
      } else {
        if i :| 0 <= i < |init| && init[i].kind == FlowEnd && init[i].uniqueId == uid {
          assert events[i] == init[i];
        }
        if i :| 0 <= i < |events| && events[i].kind == FlowEnd && events[i].uniqueId == uid {
          assert init[i] == events[i];
        }
        if uid in FlowEnds(init) {
          var i :| 0 <= i < |init| && init[i].kind == FlowEnd && init[i].uniqueId == uid &&
                   FlowEnds(init)[uid] == init[i].id &&
                   forall j :: i < j < |init| ==> !(init[j].kind == FlowEnd && init[j].uniqueId == uid);
          assert events[i] == init[i];
          assert forall j :: i < j < |events| ==> !(events[j].kind == FlowEnd && events[j].uniqueId == uid) by {
            forall j | i < j < |events| ensures !(events[j].kind == FlowEnd && events[j].uniqueId == uid) {
              if j < n {
                assert events[j] == init[j];
              }
            }
          }
        }
      }
    }
  }

  /**
   * Two flow starts share flow id 7 (at 100 and at 200); a flow end maps
   * unique id 55 to flow 7; the X event with unique id 55 is listed under 200,
   * the later start.
   */
  lemma DuplicateStartExample()
    ensures var x := Event(X, 0, 55, 400);
            AclToNpu([Event(FlowStart, 7, 0, 100), Event(FlowStart, 7, 1, 200), Event(FlowEnd, 7, 55, 300), x]) ==
            map[200 := [x]]
  {
    var s1, s2, f, x := Event(FlowStart, 7, 0, 100), Event(FlowStart, 7, 1, 200), Event(FlowEnd, 7, 55, 300), Event(X, 0, 55, 400);
    var e1 := [s1];
    var e2 := e1 + [s2];
    var e3 := e2 + [f];
    var events := e3 + [x];
    assert events == [s1, s2, f, x];
    assert events[..3] == e3 && e3[..2] == e2 && e2[..1] == e1 && e1[..0] == [];
    assert FlowStarts(e1) == map[7 := 100] && FlowEnds(e1) == map[];
    assert FlowStarts(e2) == map[7 := 200] && FlowEnds(e2) == map[];
    assert FlowStarts(e3) == map[7 := 200] && FlowEnds(e3) == map[55 := 7];
    assert FlowStarts(events) == map[7 := 200] && FlowEnds(events) == map[55 := 7];
    var starts, ends := map[7 := 200], map[55 := 7];
    assert Collect(e1, starts, ends) == map[];
    assert Collect(e2, starts, ends) == map[];
    assert Collect(e3, starts, ends) == map[];
    assert Resolve(x, starts, ends) == Some(200);
    assert Lookup(map[], 200) + [x] == [x];
    assert Collect(events, starts, ends) == map[200 := [x]];
    assert AclToNpu(events) == map[200 := [x]];
  }

  /** An X event whose unique id has no flow end is listed nowhere. */
  lemma UnresolvedDropped(events: seq<Event>, e: Event, t: int)
    requires e.kind == X && e.uniqueId !in FlowEnds(events)
    ensures e !in Lookup(AclToNpu(events), t)
  {
    AclToNpuPlacement(events, t, e);
  }
}
