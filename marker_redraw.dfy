/** How both map pages wire the `debounce` helper to their marker redraw
    (src/component/mapComponent/mapGallery.tsx and
    src/app/gallery/mapGallery.tsx). The redraw callback closes over the
    list of the render that built it; `useMemo` builds a new debounced
    wrapper around it whenever the list changes, and the `zoomend moveend`
    listener is moved to the new wrapper. The old wrapper's pending timer,
    if any, is not cleared: it still runs, with the old list. Generic in the
    list type `S`, so that both pages share it. */
module MarkerRedraw {
  import opened Common
  import opened Debounce

  /** The wiring's state. `captured` is the list the current wrapper's
      callback closes over; `wrapper` is that wrapper, whose `fired` log
      records every redraw of the layer so far, oldest first, whichever
      wrapper or effect made it; `stranded` holds the pending timers of
      replaced wrappers, in the order they were scheduled. */
  datatype Redraw<S> = Redraw(captured: S, wrapper: State<S>, stranded: seq<Timer<S>>)

  /** The wiring at mount: the first wrapper, idle, and nothing drawn. */
  function Initial<S(==)>(list: S): (r: Redraw<S>)
    ensures r.captured == list && Idle(r.wrapper) && r.wrapper.fired == [] && r.stranded == []
    ensures Scheduled(r) && UpToDate(r) && UpToDate(DrawnNow(r))
  {
    Redraw(list, State(None, []), [])
  }

  /** A `zoomend` or `moveend` event: the current wrapper is called. */
  function Moved<S(==)>(r: Redraw<S>): (r': Redraw<S>)
    ensures r'.captured == r.captured && r'.stranded == r.stranded && r'.wrapper.fired == r.wrapper.fired
    ensures r'.wrapper.pending == Some(Timer(r.captured, ImageMarkerDebounceTime))
    ensures UpToDate(r) ==> UpToDate(r')
  {
    r.(wrapper := Call(r.wrapper, r.captured, ImageMarkerDebounceTime))
  }

  /** The effect that redraws at once when the list changes or the map
      becomes ready: the layer shows the captured list. */
  function DrawnNow<S(==)>(r: Redraw<S>): (r': Redraw<S>)
    ensures r'.wrapper.fired == r.wrapper.fired + [r.captured]
    ensures r'.captured == r.captured && r'.wrapper.pending == r.wrapper.pending && r'.stranded == r.stranded
  {
    r.(wrapper := r.wrapper.(fired := r.wrapper.fired + [r.captured]))
  }

  /** The pending timer of a wrapper, as a queue of at most one. */
  function PendingOf<S(==)>(s: State<S>): (q: seq<Timer<S>>)
    ensures Idle(s) ==> q == []
    ensures !Idle(s) ==> q == [s.pending.value]
  {
    if s.pending.Some? then [s.pending.value] else []
  }

  /** A render with a new list, as written: a fresh, idle wrapper closes
      over the new list, and the old wrapper's pending timer stays
      scheduled. */
  function Rebuilt<S(==)>(r: Redraw<S>, list: S): (r': Redraw<S>)
    ensures r'.captured == list && Idle(r'.wrapper) && r'.wrapper.fired == r.wrapper.fired
    ensures r'.stranded == r.stranded + PendingOf(r.wrapper)
  {
    Redraw(list, State(None, r.wrapper.fired), r.stranded + PendingOf(r.wrapper))
  }

  /** A render with a new list, corrected: the listener effect's cleanup
      also clears the old wrapper's pending timer, so nothing is left
      behind. */
  function RebuiltClearing<S(==)>(r: Redraw<S>, list: S): (r': Redraw<S>)
    ensures r'.captured == list && Idle(r'.wrapper) && r'.wrapper.fired == r.wrapper.fired
    ensures r'.stranded == r.stranded
  {
    Redraw(list, State(None, r.wrapper.fired), r.stranded)
  }

  /** `dt` milliseconds pass on a queue of timers: the ones whose time is
      up run, in queue order, and the others count down. */
  function ElapseQueue<S(==)>(q: seq<Timer<S>>, dt: nat): (r: (seq<Timer<S>>, seq<S>))
    ensures |r.0| + |r.1| == |q|
    ensures forall i :: 0 <= i < |r.0| ==> r.0[i].remaining > 0
    decreases |q|
  {
    if q == [] then ([], [])
    else
      var rest := ElapseQueue(q[1..], dt);
      if dt >= q[0].remaining then (rest.0, [q[0].args] + rest.1)
      else ([Timer(q[0].args, q[0].remaining - dt)] + rest.0, rest.1)
  }

  /** `dt` milliseconds pass: the stranded timers that are due run first,
      then the current wrapper's, when due. */
  function Pass<S(==)>(r: Redraw<S>, dt: nat): (r': Redraw<S>)
    ensures r'.captured == r.captured
    ensures r'.stranded == ElapseQueue(r.stranded, dt).0
    ensures r'.wrapper == Elapse(r.wrapper.(fired := r.wrapper.fired + ElapseQueue(r.stranded, dt).1), dt)
  {
    var q := ElapseQueue(r.stranded, dt);
    r.(stranded := q.0, wrapper := Elapse(r.wrapper.(fired := r.wrapper.fired + q.1), dt))
  }

  /** The timers' remaining times never decrease along the queue. */
  predicate Sorted<S(==)>(q: seq<Timer<S>>)
  {
    forall i, j :: 0 <= i < j < |q| ==> q[i].remaining <= q[j].remaining
  }

  /** Every timer was scheduled with the same wait, so the queue of stranded
      timers followed by the current one comes due in queue order, and no
      timer is more than one wait away. This is what makes `Pass`, which
      runs due timers in queue order, run them in the order their times
      come up. */
  predicate Scheduled<S(==)>(r: Redraw<S>)
  {
    Sorted(r.stranded + PendingOf(r.wrapper)) &&
    forall t :: t in r.stranded + PendingOf(r.wrapper) ==> t.remaining <= ImageMarkerDebounceTime
  }

  /** Letting time pass on a sorted queue keeps it sorted. */
  lemma {:induction false} ElapseQueueSorted<S>(q: seq<Timer<S>>, dt: nat)
    requires Sorted(q)
    ensures Sorted(ElapseQueue(q, dt).0)
    decreases |q|
  {
    if q != [] {
      SortedSplit(q);
      ElapseQueueSorted(q[1..], dt);
      if dt < q[0].remaining {
        ElapseQueueFloor(q[1..], dt, q[0].remaining);
        SortedCons(Timer(q[0].args, q[0].remaining - dt), ElapseQueue(q[1..], dt).0);
      }
    }
  }

  /** Every timer still waiting after `dt` milliseconds was at least `dt`
      further off than it is now. */
  lemma {:induction false} ElapseQueueCeiling<S>(q: seq<Timer<S>>, dt: nat, bound: int)
    requires forall t :: t in q ==> t.remaining <= bound
    ensures forall t :: t in ElapseQueue(q, dt).0 ==> t.remaining + dt <= bound
    decreases |q|
  {
    if q != [] {
      assert forall t :: t in q[1..] ==> t in q;
      ElapseQueueCeiling(q[1..], dt, bound);
    }
  }

  /** A sorted queue's tail is sorted, and its head comes due first. */
  lemma SortedSplit<S>(q: seq<Timer<S>>)
    requires Sorted(q) && q != []
    ensures Sorted(q[1..])
    ensures forall t :: t in q[1..] ==> q[0].remaining <= t.remaining
  {
    forall i, j | 0 <= i < j < |q[1..]| ensures q[1..][i].remaining <= q[1..][j].remaining {
      assert q[1..][i] == q[i + 1] && q[1..][j] == q[j + 1];
    }
    forall t | t in q[1..] ensures q[0].remaining <= t.remaining {
      var k :| 0 <= k < |q[1..]| && q[1..][k] == t;
      assert q[1..][k] == q[k + 1];
    }
  }

  lemma SortedCons<S>(head: Timer<S>, q: seq<Timer<S>>)
    requires Sorted(q) && forall t :: t in q ==> head.remaining <= t.remaining
    ensures Sorted([head] + q)
  {
    var r := [head] + q;
    forall i, j | 0 <= i < j < |r| ensures r[i].remaining <= r[j].remaining {
      assert r[j] == q[j - 1] && q[j - 1] in q;
      if i > 0 { assert r[i] == q[i - 1]; }
    }
  }

  /** Every timer still waiting after `dt` milliseconds was at least `low`
      away before. */
  lemma {:induction false} ElapseQueueFloor<S>(q: seq<Timer<S>>, dt: nat, low: int)
    requires forall t :: t in q ==> low <= t.remaining
    ensures forall t :: t in ElapseQueue(q, dt).0 ==> low <= t.remaining + dt
    decreases |q|
  {
    if q != [] {
      assert forall t :: t in q[1..] ==> t in q;
      ElapseQueueFloor(q[1..], dt, low);
    }
  }

  /** A queue whose timers are all at most `dt` away runs all of them. */
  lemma {:induction false} ElapseQueueAllDue<S>(q: seq<Timer<S>>, dt: nat)
    requires forall t :: t in q ==> t.remaining <= dt
    ensures ElapseQueue(q, dt).0 == []
    decreases |q|
  {
    if q != [] {
      assert forall t :: t in q[1..] ==> t in q;
      ElapseQueueAllDue(q[1..], dt);
    }
  }

  lemma ConcatSorted<S>(q: seq<Timer<S>>, t: Timer<S>)
    requires Sorted(q) && forall u :: u in q ==> u.remaining <= t.remaining
    ensures Sorted(q + [t])
  {
    var r := q + [t];
    forall i, j | 0 <= i < j < |r| ensures r[i].remaining <= r[j].remaining {
      assert r[i] == q[i];
      if j < |q| { assert r[j] == q[j]; } else { assert q[i] in q; }
    }
  }

  /** Every step keeps the timers in the order they come due and within
      one wait. */
  lemma ScheduledMoved<S>(r: Redraw<S>)
    requires Scheduled(r)
    ensures Scheduled(Moved(r))
  {
    StrandedSorted(r);
    assert forall u :: u in r.stranded ==> u in r.stranded + PendingOf(r.wrapper);
    ConcatSorted(r.stranded, Timer(r.captured, ImageMarkerDebounceTime));
  }

  /** The stranded timers alone are in order, and none comes due after the
      current wrapper's. */
  lemma StrandedSorted<S>(r: Redraw<S>)
    requires Sorted(r.stranded + PendingOf(r.wrapper))
    ensures Sorted(r.stranded)
    ensures r.wrapper.pending.Some? ==>
      forall u :: u in r.stranded ==> u.remaining <= r.wrapper.pending.value.remaining
  {
    var q := r.stranded + PendingOf(r.wrapper);
    forall i, j | 0 <= i < j < |r.stranded| ensures r.stranded[i].remaining <= r.stranded[j].remaining {
      assert q[i] == r.stranded[i] && q[j] == r.stranded[j];
    }
    if r.wrapper.pending.Some? {
      forall u | u in r.stranded ensures u.remaining <= r.wrapper.pending.value.remaining {
        var k :| 0 <= k < |r.stranded| && r.stranded[k] == u;
        assert q[k] == u && q[|r.stranded|] == r.wrapper.pending.value;
      }
    }
  }

  lemma ScheduledDrawnNow<S>(r: Redraw<S>)
    requires Scheduled(r)
    ensures Scheduled(DrawnNow(r))
  {
    assert PendingOf(DrawnNow(r).wrapper) == PendingOf(r.wrapper);
  }

  lemma ScheduledRebuilt<S>(r: Redraw<S>, list: S)
    requires Scheduled(r)
    ensures Scheduled(Rebuilt(r, list))
  {
    assert Rebuilt(r, list).stranded + PendingOf(Rebuilt(r, list).wrapper) == r.stranded + PendingOf(r.wrapper);
  }

  lemma ScheduledRebuiltClearing<S>(r: Redraw<S>, list: S)
    requires Scheduled(r)
    ensures Scheduled(RebuiltClearing(r, list))
  {
    StrandedSorted(r);
    assert forall u :: u in r.stranded ==> u in r.stranded + PendingOf(r.wrapper);
    assert r.stranded + PendingOf(RebuiltClearing(r, list).wrapper) == r.stranded;
  }

  lemma ScheduledPass<S>(r: Redraw<S>, dt: nat)
    requires Scheduled(r)
    ensures Scheduled(Pass(r, dt))
  {
    StrandedSorted(r);
    assert forall u :: u in r.stranded ==> u in r.stranded + PendingOf(r.wrapper);
    var after := Pass(r, dt);
    var rest := ElapseQueue(r.stranded, dt).0;
    ElapseQueueSorted(r.stranded, dt);
    ElapseQueueCeiling(r.stranded, dt, ImageMarkerDebounceTime);
    if after.wrapper.pending.Some? {
      var p := r.wrapper.pending.value;
      ElapseQueueCeiling(r.stranded, dt, p.remaining);
      assert after.wrapper.pending.value.remaining == p.remaining - dt;
      ConcatSorted(rest, after.wrapper.pending.value);
      assert PendingOf(after.wrapper) == [after.wrapper.pending.value];
    } else {
      assert rest + PendingOf(after.wrapper) == rest;
    }
  }

  /** However the timers were left, one full wait later every one of them
      has run: a stranded redraw is late by at most one wait. */
  lemma FullWaitSettles<S>(r: Redraw<S>)
    requires Scheduled(r)
    ensures Pass(r, ImageMarkerDebounceTime).stranded == []
    ensures Idle(Pass(r, ImageMarkerDebounceTime).wrapper)
  {
    var q := r.stranded + PendingOf(r.wrapper);
    assert forall u :: u in r.stranded ==> u in q;
    ElapseQueueAllDue(r.stranded, ImageMarkerDebounceTime);
    if r.wrapper.pending.Some? {
      assert r.wrapper.pending.value in q;
    }
  }

  /** As written: a pan or zoom with the old list, then within one wait a
      new list (a save, an added album, a deletion), then the rest of the
      wait. The immediate effect draws the new list, and then the old
      wrapper's timer draws the old list over it: the map is left showing
      the list the page no longer holds. */
  lemma StaleRedrawAsWritten<S>(oldList: S, newList: S, gap: nat)
    requires gap < ImageMarkerDebounceTime
    ensures var r := DrawnNow(Initial(oldList));
      var later := Pass(DrawnNow(Rebuilt(Pass(Moved(r), gap), newList)), ImageMarkerDebounceTime - gap);
      later.captured == newList &&
      later.wrapper.fired == [oldList, newList, oldList]
  {
    var r := DrawnNow(Initial(oldList));
    var moved := Pass(Moved(r), gap);
    assert moved.wrapper.pending == Some(Timer(oldList, ImageMarkerDebounceTime - gap));
    assert moved.wrapper.fired == [oldList];
    var changed := DrawnNow(Rebuilt(moved, newList));
    assert changed.stranded == [Timer(oldList, ImageMarkerDebounceTime - gap)];
    assert changed.wrapper.fired == [oldList, newList];
    var later := Pass(changed, ImageMarkerDebounceTime - gap);
    var q := changed.stranded;
    assert q[1..] == [];
    var rest := ElapseQueue(q[1..], ImageMarkerDebounceTime - gap);
    assert rest == ([], []);
    assert ElapseQueue(q, ImageMarkerDebounceTime - gap) == (rest.0, [q[0].args] + rest.1);
    assert [q[0].args] + rest.1 == [oldList];
  }

  /** The map shows the list the page holds: nothing stranded, a pending
      call redraws the captured list, and the last redraw drew it. */
  predicate UpToDate<S(==)>(r: Redraw<S>)
  {
    r.stranded == [] &&
    (r.wrapper.pending.Some? ==> r.wrapper.pending.value.args == r.captured) &&
    (r.wrapper.fired != [] ==> r.wrapper.fired[|r.wrapper.fired| - 1] == r.captured)
  }

  /** Corrected: with the pending timer cleared on a rebuild, the map is up
      to date after a new list and its immediate redraw, and stays so
      through pans, zooms and waits; so every later redraw draws the list
      the page holds. */
  lemma RebuiltClearingUpToDate<S>(r: Redraw<S>, list: S)
    requires r.stranded == []
    ensures UpToDate(DrawnNow(RebuiltClearing(r, list)))
    ensures DrawnNow(RebuiltClearing(r, list)).captured == list
  {
  }

  lemma UpToDatePass<S>(r: Redraw<S>, dt: nat)
    requires UpToDate(r)
    ensures UpToDate(Pass(r, dt))
    ensures forall k :: |r.wrapper.fired| <= k < |Pass(r, dt).wrapper.fired| ==>
      Pass(r, dt).wrapper.fired[k] == r.captured
  {
    assert ElapseQueue(r.stranded, dt) == ([], []);
    assert r.wrapper.(fired := r.wrapper.fired + []) == r.wrapper;
  }

  /** The stale redraw needs a pending call: when the wrapper is idle, the
      rebuild as written is the corrected one. */
  lemma RebuiltWhenIdle<S>(r: Redraw<S>, list: S)
    requires Idle(r.wrapper)
    ensures Rebuilt(r, list) == RebuiltClearing(r, list)
  {
    assert r.stranded + PendingOf(r.wrapper) == r.stranded;
  }

  /** The corrected scenario of `StaleRedrawAsWritten`: the map is left
      showing the new list. */
  lemma NoStaleRedrawWhenCleared<S>(oldList: S, newList: S, gap: nat)
    requires gap < ImageMarkerDebounceTime
    ensures var r := DrawnNow(Initial(oldList));
      var later := Pass(DrawnNow(RebuiltClearing(Pass(Moved(r), gap), newList)), ImageMarkerDebounceTime - gap);
      later.captured == newList &&
      later.wrapper.fired == [oldList, newList]
  {
    var r := DrawnNow(Initial(oldList));
    var moved := Pass(Moved(r), gap);
    assert moved.stranded == [] && moved.wrapper.fired == [oldList];
    var changed := DrawnNow(RebuiltClearing(moved, newList));
    assert ElapseQueue(changed.stranded, ImageMarkerDebounceTime - gap) == ([], []);
    assert changed.wrapper.(fired := changed.wrapper.fired + []) == changed.wrapper;
  }
}
