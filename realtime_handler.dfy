/**
  The consumer side of the capture protocol: the realtime mode handler starts and stops the
  capture service, flips the analysis event, and drains the data and frame queues without
  blocking, keeping a sorted registry of the entity identifiers seen in feature packets.
 */
module RealtimeHandlers {
  import opened Wrappers
  import opened Json
  import opened Channels
  import opened Config
  import opened CaptureServices

  /** Python's string order: lexicographic by code point, a proper prefix first. */
  predicate LessEq(a: string, b: string)
    decreases |a|
  {
    a == [] || (b != [] && (a[0] < b[0] || (a[0] == b[0] && LessEq(a[1..], b[1..]))))
  }

  lemma {:induction false} LessEqTotal(a: string, b: string)
    ensures LessEq(a, b) || LessEq(b, a)
    decreases |a|
  {
    if a != [] && b != [] && a[0] == b[0] {
      LessEqTotal(a[1..], b[1..]);
    }
  }

  lemma {:induction false} LessEqTransitive(a: string, b: string, c: string)
    requires LessEq(a, b) && LessEq(b, c)
    ensures LessEq(a, c)
    decreases |a|
  {
    if a != [] && a[0] == b[0] && b[0] == c[0] {
      LessEqTransitive(a[1..], b[1..], c[1..]);
    }
  }

  lemma {:induction false} LessEqAntisymmetric(a: string, b: string)
    requires LessEq(a, b) && LessEq(b, a)
    ensures a == b
    decreases |a|
  {
    if a != [] {
      LessEqAntisymmetric(a[1..], b[1..]);
      assert a == [a[0]] + a[1..] && b == [b[0]] + b[1..];
    }
  }

  predicate Sorted(s: seq<string>)
  {
    forall i, j :: 0 <= i < j < |s| ==> LessEq(s[i], s[j])
  }

  /** Each identifier occurs at most once. */
  predicate NoDuplicates(s: seq<string>)
  {
    forall x | x in multiset(s) :: multiset(s)[x] == 1
  }

  /** Putting a lower bound of a sorted list in front of it keeps it sorted. */
  lemma InsertAtHead(x: string, s: seq<string>)
    requires Sorted(s) && (s == [] || LessEq(x, s[0]))
    ensures Sorted([x] + s)
  {
    forall j | 0 < j < |s| ensures LessEq(x, s[j]) {
      LessEqTransitive(x, s[0], s[j]);
    }
  }

  /** The head of a sorted list stays in front of the list's tail with an element that the
      head precedes inserted anywhere. */
  lemma InsertAfterHead(x: string, s: seq<string>, t: seq<string>)
    requires Sorted(s) && s != [] && !LessEq(x, s[0])
    requires Sorted(t) && multiset(t) == multiset(s[1..]) + multiset{x}
    ensures Sorted([s[0]] + t)
  {
    LessEqTotal(x, s[0]);
    forall j | 0 <= j < |t| ensures LessEq(s[0], t[j]) {
      assert t[j] in multiset(t);
      if t[j] != x {
        assert t[j] in multiset(s[1..]);
        var k :| 0 <= k < |s[1..]| && s[1..][k] == t[j];
        assert s[k + 1] == t[j];
      }
    }
  }

  /** Inserts `x` into a sorted list after the elements that come before it. */
  function Insert(x: string, s: seq<string>): (r: seq<string>)
    requires Sorted(s)
    ensures Sorted(r)
    ensures multiset(r) == multiset(s) + multiset{x}
    decreases |s|
  {
    if s == [] || LessEq(x, s[0]) then
      InsertAtHead(x, s);
      [x] + s
    else
      var t := Insert(x, s[1..]);
      InsertAfterHead(x, s, t);
      assert s == [s[0]] + s[1..];
      [s[0]] + t
  }

  /** `list.sort()`: an ordering of the same elements, ascending. */
  function Sort(s: seq<string>): (r: seq<string>)
    ensures Sorted(r)
    ensures multiset(r) == multiset(s)
    decreases |s|
  {
    if s == [] then []
    else
      assert s == [s[0]] + s[1..];
      Insert(s[0], Sort(s[1..]))
  }

  lemma {:induction false} LessEqReflexive(a: string)
    ensures LessEq(a, a)
    decreases |a|
  {
    if a != [] {
      LessEqReflexive(a[1..]);
    }
  }

  /** The first element of a sorted list comes before every element of the list. */
  lemma SortedHeadIsLeast(a: seq<string>, x: string)
    requires Sorted(a) && x in multiset(a)
    ensures a != [] && LessEq(a[0], x)
  {
    var k :| 0 <= k < |a| && a[k] == x;
    if k == 0 {
      LessEqReflexive(x);
    }
  }

  lemma SameHeadSameTail(a: seq<string>, b: seq<string>)
    requires a != [] && b != [] && a[0] == b[0] && multiset(a) == multiset(b)
    ensures multiset(a[1..]) == multiset(b[1..])
  {
    assert a == [a[0]] + a[1..] && b == [b[0]] + b[1..];
    forall x ensures multiset(a[1..])[x] == multiset(b[1..])[x] {
      assert multiset(a)[x] == multiset{a[0]}[x] + multiset(a[1..])[x];
      assert multiset(b)[x] == multiset{b[0]}[x] + multiset(b[1..])[x];
    }
  }

  /** There is only one ascending ordering of a collection of strings, so `Sort` agrees with
      Python's `list.sort` whatever algorithm that uses. */
  lemma {:induction false} SortedIsUnique(a: seq<string>, b: seq<string>)
    requires Sorted(a) && Sorted(b) && multiset(a) == multiset(b)
    ensures a == b
    decreases |a|
  {
    assert |a| == |multiset(a)| == |multiset(b)| == |b|;
    if a != [] {
      assert a[0] in multiset(b) && b[0] in multiset(a);
      SortedHeadIsLeast(b, a[0]);
      SortedHeadIsLeast(a, b[0]);
      LessEqAntisymmetric(a[0], b[0]);
      SameHeadSameTail(a, b);
      SortedIsUnique(a[1..], b[1..]);
      assert a == [a[0]] + a[1..] && b == [b[0]] + b[1..];
    }
  }

  /** The prefix that marks an entity identifier key. */
  const IdPrefix := "ID_"

  predicate IsIdKey(k: string)
  {
    |k| >= |IdPrefix| && k[..|IdPrefix|] == IdPrefix
  }

  /** `[k for k in packet.keys() if k.startswith('ID_') and k not in active_ids]`. */
  function NewIds(packet: Packet, registered: seq<string>): (r: set<string>)
    // Only `ID_` keys of the packet, none of them registered already...
    ensures r <= packet.Keys && forall k | k in r :: IsIdKey(k) && k !in registered
    // ...and every `ID_` key of the packet ends up registered or new.
    ensures forall k | k in packet && IsIdKey(k) :: k in r || k in registered
  {
    set k | k in packet && IsIdKey(k) && k !in registered
  }

  class RealtimeHandler {
    const dataQueue: Channel<Packet>
    const frameQueue: Channel<Frame>
    const statusQueue: Channel<StatusMessage>
    /** The analysis event this handler owns and shares with each capture service it creates. */
    const analysisActive: Event
    var captureService: CaptureService?
    /** `self.model.full_history` and `self.model.active_ids`. */
    var fullHistory: seq<Packet>
    var activeIds: seq<string>

    /** A held capture service is consistent and shares this handler's event and queues. */
    ghost predicate Valid()
      reads this, captureService, if captureService != null then {captureService.running} else {}
    {
      captureService != null ==>
        && captureService.Valid()
        && captureService.analysisActive == analysisActive
        && captureService.dataQueue == dataQueue
        && captureService.frameQueue == frameQueue
        && captureService.statusQueue == statusQueue
    }

    constructor (dataQueue: Channel<Packet>, frameQueue: Channel<Frame>, statusQueue: Channel<StatusMessage>)
      ensures this.dataQueue == dataQueue && this.frameQueue == frameQueue && this.statusQueue == statusQueue
      ensures Valid() && fresh(analysisActive) && !analysisActive.flag && captureService == null
    {
      this.dataQueue := dataQueue;
      this.frameQueue := frameQueue;
      this.statusQueue := statusQueue;
      analysisActive := new Event();
      captureService := null;
      fullHistory := [];
      activeIds := [];
    }

    /** `on_mode_selected()`: analysis is switched off first, then a new capture service over
        the realtime settings is created and started, so capture always begins in preview. */
    method OnModeSelected(settings: RealtimeSettingsConfig)
      modifies this, analysisActive
      ensures Valid() && !analysisActive.flag
      ensures captureService != null && fresh(captureService) && fresh(captureService.running)
      ensures captureService.Valid() && captureService.running.flag && captureService.process.Some?
      ensures captureService.spawned == 1 && captureService.config == RealtimeAsDict(settings)
      ensures captureService.analysisActive == analysisActive
      ensures captureService.dataQueue == dataQueue && captureService.frameQueue == frameQueue
      ensures captureService.statusQueue == statusQueue
      ensures fullHistory == old(fullHistory) && activeIds == old(activeIds)
    {
      analysisActive.Clear();
      var service := new CaptureService(dataQueue, frameQueue, statusQueue, RealtimeAsDict(settings), analysisActive);
      service.Start(false);
      captureService := service;
    }

    /** `on_mode_deselected()`: a held capture service is stopped and dropped; without one, no
        service is touched. `aliveAfterJoin` is passed on to `stop`. */
    method OnModeDeselected(aliveAfterJoin: bool)
      requires Valid()
      modifies this, if captureService != null then {captureService, captureService.running} else {}
      ensures Valid() && captureService == null
      ensures old(captureService) != null ==>
        old(captureService).process == None && !old(captureService).running.flag
        && old(captureService).joins == old(captureService.joins) + (if old(captureService.process).Some? then 1 else 0)
      ensures analysisActive.flag == old(analysisActive.flag)
      ensures fullHistory == old(fullHistory) && activeIds == old(activeIds)
    {
      if captureService != null {
        captureService.Stop(aliveAfterJoin);
        captureService := null;
      }
    }

    /** `_start_specifics()`: analysis on, history and registry emptied. */
    method StartAnalysis()
      modifies this, analysisActive
      ensures analysisActive.flag && fullHistory == [] && activeIds == []
      ensures captureService == old(captureService)
    {
      analysisActive.Set();
      fullHistory := [];
      activeIds := [];
    }

    /** `_stop_specifics()`: analysis off, nothing else changes. */
    method StopAnalysis()
      modifies analysisActive
      ensures !analysisActive.flag
    {
      analysisActive.Clear();
    }

    /** `get_next_data_packet()`: takes the oldest packet without waiting, or returns `None` on
        an empty queue. The identifier keys of the packet not yet registered are appended to
        the registry, which is then sorted; the packet itself is returned unchanged. */
    method GetNextDataPacket() returns (r: Option<Packet>)
      modifies this, dataQueue
      ensures old(dataQueue.items) == [] ==> r == None && dataQueue.items == [] && activeIds == old(activeIds)
      ensures old(dataQueue.items) != [] ==>
        r == Some(old(dataQueue.items)[0]) && dataQueue.items == old(dataQueue.items)[1..]
      ensures r.Some? && NewIds(r.value, old(activeIds)) != {} ==>
        Sorted(activeIds) && multiset(activeIds) == multiset(old(activeIds)) + multiset(NewIds(r.value, old(activeIds)))
      ensures r.Some? && NewIds(r.value, old(activeIds)) == {} ==> activeIds == old(activeIds)
      ensures r.Some? ==> forall k :: k in activeIds <==> k in old(activeIds) || (k in r.value && IsIdKey(k))
      ensures Sorted(old(activeIds)) ==> Sorted(activeIds)
      ensures NoDuplicates(old(activeIds)) ==> NoDuplicates(activeIds)
      ensures fullHistory == old(fullHistory) && captureService == old(captureService)
    {
      r := dataQueue.GetNowait();
      if r.None? {
        return;
      }
      var newIds := NewIds(r.value, activeIds);
      if newIds != {} {
        ExtendAndSort(newIds);
        forall k ensures k in activeIds <==> k in old(activeIds) || (k in r.value && IsIdKey(k)) {
          assert k in activeIds <==> k in multiset(activeIds);
          assert k in old(activeIds) <==> k in multiset(old(activeIds));
        }
      } else {
        forall k | k in r.value && IsIdKey(k) ensures k in activeIds {
          assert k !in activeIds ==> k in newIds;
        }
      }
    }

    /** `active_ids.extend(new_ids)` followed by `active_ids.sort()`. */
    method ExtendAndSort(ids: set<string>)
      requires forall x | x in ids :: x !in activeIds
      modifies this`activeIds
      ensures Sorted(activeIds) && multiset(activeIds) == multiset(old(activeIds)) + multiset(ids)
      ensures NoDuplicates(old(activeIds)) ==> NoDuplicates(activeIds)
    {
      ghost var before := activeIds;
      var rest := ids;
      while rest != {}
        invariant rest <= ids
        invariant multiset(activeIds) == multiset(before) + multiset(ids - rest)
        invariant forall x :: x in rest ==> x !in activeIds
        invariant NoDuplicates(before) ==> NoDuplicates(activeIds)
        decreases rest
      {
        var k :| k in rest;
        activeIds := activeIds + [k];
        rest := rest - {k};
        assert ids - rest == (ids - (rest + {k})) + {k};
      }
      assert ids - rest == ids;
      activeIds := Sort(activeIds);
    }

    /** `get_latest_frame()`: removes at most one frame, without waiting; `None` when the queue
        is empty. */
    method GetLatestFrame() returns (r: Option<Frame>)
      modifies frameQueue
      ensures old(frameQueue.items) == [] ==> r == None && frameQueue.items == []
      ensures old(frameQueue.items) != [] ==>
        r == Some(old(frameQueue.items)[0]) && frameQueue.items == old(frameQueue.items)[1..]
    {
      r := None;
      if !frameQueue.Empty() {
        r := frameQueue.GetNowait();
      }
    }
  }

  /** Selecting the mode a second time without deselecting it replaces the held service
      without stopping it: the earlier service's worker is left running beside the new one,
      still holding the device and writing to the shared queues. */
  method ReselectLeavesWorkerRunning(h: RealtimeHandler, settings: RealtimeSettingsConfig)
    returns (earlier: CaptureService, later: CaptureService)
    modifies h, h.analysisActive
    ensures earlier != later && h.captureService == later
    ensures earlier.running.flag && earlier.process.Some?
    ensures later.running.flag && later.process.Some?
    ensures earlier.dataQueue == later.dataQueue && earlier.frameQueue == later.frameQueue
  {
    h.OnModeSelected(settings);
    earlier := h.captureService;
    h.OnModeSelected(settings);
    later := h.captureService;
  }

  /** End to end: after a worker iteration writes frame `f` into a frame queue that held at
      most one frame, the consumer's poll returns `f` and leaves the queue empty. */
  method LatestFrameIsPolled(h: RealtimeHandler, f: Frame) returns (polled: Option<Frame>)
    requires |h.frameQueue.items| <= 1
    modifies h.frameQueue
    ensures polled == Some(f) && h.frameQueue.items == []
  {
    var full := PutLatest(h.frameQueue, f);
    polled := h.GetLatestFrame();
  }
}
