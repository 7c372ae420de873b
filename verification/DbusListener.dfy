/** Autorepeat folding on the portal path: `listen` of hotkeys/providers/dbus_provider.go. */
module DbusListener {
  import opened Optional

  type Callback = nat

  /** An event of the GlobalShortcuts portal with the clock reading at its arrival, in nanoseconds. */
  datatype Event = Event(id: string, pressed: bool, time: int)

  const REPEAT_WINDOW := 600_000_000

  // ----- The map-based machine as a function of the history

  /** The time of the latest press of an action since its last release. */
  function Latest(history: seq<Event>, id: string): Option<int> {
    if history == [] then None
    else
      var e := history[|history| - 1];
      if e.id != id then Latest(history[..|history| - 1], id)
      else if e.pressed then Some(e.time)
      else None
  }

  predicate Repeats(history: seq<Event>, e: Event) {
    var latest := Latest(history, e.id);
    latest.Some? && e.time - latest.value < REPEAT_WINDOW
  }

  predicate Fires(registered: set<string>, history: seq<Event>, e: Event) {
    e.pressed && e.id in registered && !Repeats(history, e)
  }

  /** The indices of the events that run a callback, in order. */
  function Firings(registered: set<string>, events: seq<Event>): seq<nat> {
    if events == [] then []
    else
      var init, i := events[..|events| - 1], |events| - 1;
      Firings(registered, init) + if Fires(registered, init, events[i]) then [i] else []
  }

  /** The callbacks run, in order. */
  function Calls(callbacks: map<string, Callback>, events: seq<Event>): seq<Callback> {
    if events == [] then []
    else
      var init, e := events[..|events| - 1], events[|events| - 1];
      Calls(callbacks, init) + if Fires(callbacks.Keys, init, e) then [callbacks[e.id]] else []
  }

  class DbusKeyboardProvider {
    var callbacks: map<string, Callback>
    var triggers: map<string, string>

    constructor ()
      ensures callbacks == map[] && triggers == map[]
    {
      callbacks, triggers := map[], map[];
    }

    method RegisterHotkey(id: string, hotkey: string, callback: Callback) returns (ok: bool)
      modifies this
      ensures ok == (id !in old(callbacks))
      ensures callbacks == if ok then old(callbacks)[id := callback] else old(callbacks)
      ensures triggers == if ok then old(triggers)[id := hotkey] else old(triggers)
    {
      if id in callbacks {
        return false;
      }
      callbacks := callbacks[id := callback];
      triggers := triggers[id := hotkey];
      return true;
    }

    /** Reads the events of one session and runs callbacks, which it returns in order. */
    method Listen(events: seq<Event>) returns (calls: seq<Callback>)
      ensures calls == Calls(callbacks, events)
    {
      var last: map<string, int> := map[];
      calls := [];
      for i := 0 to |events|
        invariant forall id :: Latest(events[..i], id) == if id in last then Some(last[id]) else None
        invariant calls == Calls(callbacks, events[..i])
      {
        var e := events[i];
        assert events[..i + 1][..i] == events[..i];
        if !e.pressed {
          last := last - {e.id};
          continue;
        }
        var repeat := e.id in last && e.time - last[e.id] < REPEAT_WINDOW;
        assert repeat == Repeats(events[..i], e);
        last := last[e.id := e.time];
        if repeat {
          continue;
        }
        if e.id !in callbacks {
          continue;
        }
        calls := calls + [callbacks[e.id]];
      }
      assert events[..|events|] == events;
    }
  }

  // ----- The declarative specification

  /** The clock never runs backwards. */
  predicate Ordered(events: seq<Event>) {
    forall i, j :: 0 <= i < j < |events| ==> events[i].time <= events[j].time
  }

  /** Event `j` of the history is a press of the same action, not yet released, within the window before `e`. */
  predicate InBurst(history: seq<Event>, e: Event, j: nat) {
    && j < |history|
    && history[j].id == e.id && history[j].pressed
    && (forall k :: j < k < |history| && history[k].id == e.id ==> history[k].pressed)
    && e.time - history[j].time < REPEAT_WINDOW
  }

  lemma {:induction false} LatestIsPress(history: seq<Event>, e: Event)
    requires Ordered(history + [e])
    ensures Repeats(history, e) <==> exists j: nat :: InBurst(history, e, j)
  {
    if history != [] {
      var n := |history| - 1;
      var init, h := history[..n], history[n];
      if h.id != e.id {
        assert forall i :: 0 <= i < n ==> (history + [e])[i] == (init + [e])[i];
        assert (init + [e])[n] == e && (history + [e])[n + 1] == e;
        LatestIsPress(init, e);
        forall j: nat ensures InBurst(history, e, j) <==> InBurst(init, e, j) {
        }
      } else if h.pressed {
        assert (history + [e])[n] == h;
        if j: nat :| InBurst(history, e, j) {
          assert (history + [e])[j] == history[j];
          assert history[j].time <= h.time;
        }
        assert Repeats(history, e) ==> InBurst(history, e, n);
      } else {
        assert forall j: nat :: !InBurst(history, e, j);
      }
    }
  }

  // ----- Main results

  lemma {:induction false} FiringsAre(registered: set<string>, events: seq<Event>, i: nat)
    ensures i in Firings(registered, events) <==> i < |events| && Fires(registered, events[..i], events[i])
  {
    if events != [] {
      var init := events[..|events| - 1];
      FiringsAre(registered, init, i);
      if i < |init| {
        assert init[..i] == events[..i];
      }
    }
  }

  /** Each firing event runs the callback of its own action, once and in the order of the events. */
  lemma {:induction false} CallsAreFirings(callbacks: map<string, Callback>, events: seq<Event>, k: nat)
    ensures var fired, calls := Firings(callbacks.Keys, events), Calls(callbacks, events);
            && |calls| == |fired|
            && (k < |fired| ==> fired[k] < |events| && events[fired[k]].id in callbacks && calls[k] == callbacks[events[fired[k]].id])
            && (0 < k < |fired| ==> fired[k - 1] < fired[k])
  {
    if events != [] {
      var init := events[..|events| - 1];
      CallsAreFirings(callbacks, init, k);
      if k > 0 {
        CallsAreFirings(callbacks, init, k - 1);
      }
    }
  }

  /** On time-ordered events a press of a registered action runs its callback exactly when no press of the
      same action since its last release lies less than the window before it. */
  lemma FiringIsBurstStart(registered: set<string>, events: seq<Event>, i: nat)
    requires Ordered(events) && i < |events|
    ensures i in Firings(registered, events) <==>
            && events[i].pressed && events[i].id in registered
            && !exists j: nat :: InBurst(events[..i], events[i], j)
  {
    FiringsAre(registered, events, i);
    assert events[..i] + [events[i]] == events[..i + 1];
    assert Ordered(events[..i + 1]);
    LatestIsPress(events[..i], events[i]);
  }

  /** The window is 600 ms: of two presses of one registered action, with no release between them and nothing before,
      the second one fires exactly if it comes 600 ms after the first or later. */
  lemma WindowIs600Milliseconds(registered: set<string>, id: string, time: int, later: int)
    requires id in registered && time <= later
    ensures 1 in Firings(registered, [Event(id, true, time), Event(id, true, later)]) <==> later - time >= 600 * 1_000_000
  {
    var events := [Event(id, true, time), Event(id, true, later)];
    FiringsAre(registered, events, 1);
    assert events[..1] == [Event(id, true, time)];
  }

  function Project(events: seq<Event>, id: string): seq<Event> {
    if events == [] then []
    else
      var e := events[|events| - 1];
      Project(events[..|events| - 1], id) + if e.id == id then [e] else []
  }

  /** Actions do not disturb each other: whether an event fires depends only on the earlier events of its own action. */
  lemma {:induction false} FiringIsPerAction(registered: set<string>, history: seq<Event>, e: Event)
    ensures Fires(registered, history, e) <==> Fires(registered, Project(history, e.id), e)
  {
    LatestOfProjection(history, e.id);
  }

  lemma {:induction false} LatestOfProjection(history: seq<Event>, id: string)
    ensures Latest(Project(history, id), id) == Latest(history, id)
  {
    if history != [] {
      var h, rest := history[|history| - 1], Project(history[..|history| - 1], id);
      LatestOfProjection(history[..|history| - 1], id);
      if h.id == id {
        assert (rest + [h])[..|rest|] == rest;
      } else {
        assert rest + [] == rest;
      }
    }
  }

  /** Consecutive events of one action. */
  predicate Adjacent(events: seq<Event>, id: string, p: nat, n: nat) {
    && p < n < |events| && events[p].id == id && events[n].id == id
    && forall q :: p < q < n ==> events[q].id != id
  }

  /** A held key: presses of one action from `i` to `k`, each less than the window after the one before. */
  ghost predicate Train(events: seq<Event>, id: string, i: nat, k: nat) {
    && i <= k < |events| && events[i].id == id
    && (forall n :: i <= n <= k && events[n].id == id ==> events[n].pressed)
    && (forall p: nat, n: nat :: i <= p && n <= k && Adjacent(events, id, p, n) ==> events[n].time - events[p].time < REPEAT_WINDOW)
  }

  lemma {:induction false} LatestInTrain(events: seq<Event>, id: string, i: nat, n: nat) returns (p: nat)
    requires i < n <= |events| && events[i].id == id
    requires forall q :: i <= q < n && events[q].id == id ==> events[q].pressed
    ensures i <= p < n && events[p].id == id && (forall q :: p < q < n ==> events[q].id != id)
    ensures Latest(events[..n], id) == Some(events[p].time)
  {
    assert events[..n][..n - 1] == events[..n - 1];
    if events[n - 1].id == id {
      p := n - 1;
    } else {
      p := LatestInTrain(events, id, i, n - 1);
    }
  }

  /** However long a train is, of all its events only the first one can fire, and it does so exactly if the action is
      registered and the train does not go on from an earlier press. */
  lemma TrainFiresOnce(registered: set<string>, events: seq<Event>, id: string, i: nat, k: nat, n: nat)
    requires Ordered(events) && Train(events, id, i, k)
    requires i <= n <= k && events[n].id == id
    ensures n in Firings(registered, events) <==>
              n == i && id in registered && !exists j: nat :: InBurst(events[..i], events[i], j)
  {
    if n == i {
      FiringIsBurstStart(registered, events, i);
    } else {
      var p := LatestInTrain(events, id, i, n);
      assert Adjacent(events, id, p, n);
      FiringsAre(registered, events, n);
    }
  }
}
