/** The pointer device (src/mouse.rs), reduced to the three operations the
    painter uses. Each attempt is recorded, with whether it succeeded, in a
    ghost log, so that what a caller emitted can be stated exactly. */
module Mouse {
  import opened MyErrors

  /** One request to the device: release, press, or move to screen (x, y). */
  datatype Action = Up | Down | MoveTo(x: real, y: real)

  /** An attempted action and whether the device reported success. */
  datatype Event = Event(action: Action, ok: bool)

  /** Every action of `acts`, each reported successful. */
  function Succeeded(acts: seq<Action>): (es: seq<Event>)
    ensures |es| == |acts|
  {
    seq(|acts|, i requires 0 <= i < |acts| => Event(acts[i], true))
  }

  /** `events` is what a caller that issues `planned` in order and stops at
      the first failure leaves in the log: either every planned action, all
      successful (`ok`), or a prefix of them that succeeded followed by the
      next planned action, which failed (not `ok`). */
  predicate Performed(planned: seq<Action>, events: seq<Event>, ok: bool)
  {
    if ok then events == Succeeded(planned)
    else
      0 < |events| <= |planned| &&
      events == Succeeded(planned[..|events| - 1]) + [Event(planned[|events| - 1], false)]
  }

  /** The log grew from `before` to `after` by running `planned` as above. */
  predicate Emitted(before: seq<Event>, after: seq<Event>, planned: seq<Action>, ok: bool)
  {
    |before| <= |after| && after[..|before|] == before &&
    Performed(planned, after[|before|..], ok)
  }

  /** A run reports success exactly when every attempted action succeeded,
      each attempt is the planned action at its position, and a successful
      run attempted all of them; a failed run succeeded at every attempt but
      its last. */
  lemma PerformedShortCircuits(planned: seq<Action>, events: seq<Event>, ok: bool)
    requires Performed(planned, events, ok)
    ensures |events| <= |planned|
    ensures forall i :: 0 <= i < |events| ==> events[i].action == planned[i]
    ensures ok <==> forall i :: 0 <= i < |events| ==> events[i].ok
    ensures ok ==> |events| == |planned|
    ensures !ok ==> |events| > 0 && !events[|events| - 1].ok
    ensures !ok ==> forall i :: 0 <= i < |events| - 1 ==> events[i].ok
  {
    if !ok {
      var k := |events| - 1;
      assert events[k] == Event(planned[k], false);
      forall i | 0 <= i < k
        ensures events[i] == Event(planned[i], true)
      {
        assert events[i] == Succeeded(planned[..k])[i];
      }
    }
  }

  /** A run that failed emitted at least one event, and its last one failed. */
  lemma FailureComesFromDevice(before: seq<Event>, after: seq<Event>, planned: seq<Action>)
    requires Emitted(before, after, planned, false)
    ensures |after| > |before| && !after[|after| - 1].ok
  {
    var events := after[|before|..];
    PerformedShortCircuits(planned, events, false);
    assert after[|after| - 1] == events[|events| - 1];
  }

  /** A run of a non-empty plan attempts at least its first action. */
  lemma EmittedFirst(before: seq<Event>, after: seq<Event>, planned: seq<Action>, ok: bool)
    requires |planned| > 0
    requires Emitted(before, after, planned, ok)
    ensures |after| > |before| && after[|before|].action == planned[0]
  {
    var events := after[|before|..];
    PerformedShortCircuits(planned, events, ok);
    assert after[|before|] == events[0];
  }

  /** Issuing nothing emits nothing and succeeds. */
  lemma EmittedNothing(log: seq<Event>)
    ensures Emitted(log, log, [], true)
  {
    assert log[|log|..] == [];
  }

  /** One attempted action. */
  lemma EmittedOne(before: seq<Event>, a: Action, ok: bool)
    ensures Emitted(before, before + [Event(a, ok)], [a], ok)
  {
    var after := before + [Event(a, ok)];
    assert after[..|before|] == before;
    assert after[|before|..] == [Event(a, ok)];
    if !ok {
      assert [a][..0] == [];
    }
  }

  /** A run of `first` that succeeded, followed by a run of `second`, is a
      run of `first + second` with the second run's outcome. */
  lemma EmittedThen(l0: seq<Event>, l1: seq<Event>, l2: seq<Event>,
                    first: seq<Action>, second: seq<Action>, ok: bool)
    requires Emitted(l0, l1, first, true)
    requires Emitted(l1, l2, second, ok)
    ensures Emitted(l0, l2, first + second, ok)
  {
    var e1, e2 := l1[|l0|..], l2[|l1|..];
    assert l2[..|l0|] == l1[..|l0|] == l0;
    assert l2[|l0|..] == e1 + e2;
    if ok {
      assert Succeeded(first + second) == Succeeded(first) + Succeeded(second);
    } else {
      var k := |e2| - 1;
      var plan := first + second;
      assert plan[..|first| + k] == first + second[..k];
      assert Succeeded(first + second[..k]) == Succeeded(first) + Succeeded(second[..k]);
      assert plan[|first| + k] == second[k];
      assert e1 + e2 == Succeeded(plan[..|e1 + e2| - 1]) + [Event(plan[|e1 + e2| - 1], false)];
    }
  }

  /** Appending one more successful action. */
  lemma SucceededSnoc(acts: seq<Action>, a: Action)
    ensures Succeeded(acts + [a]) == Succeeded(acts) + [Event(a, true)]
  {
  }

  /** Every planned action attempted, all successful. */
  lemma EmittedAll(before: seq<Event>, planned: seq<Action>)
    ensures Emitted(before, before + Succeeded(planned), planned, true)
  {
    var after := before + Succeeded(planned);
    assert after[..|before|] == before;
    assert after[|before|..] == Succeeded(planned);
  }

  /** The first k planned actions successful, then the next one failed. */
  lemma EmittedFailAt(before: seq<Event>, planned: seq<Action>, k: nat)
    requires k < |planned|
    ensures Emitted(before, before + Succeeded(planned[..k]) + [Event(planned[k], false)], planned, false)
  {
    var events := Succeeded(planned[..k]) + [Event(planned[k], false)];
    var after := before + Succeeded(planned[..k]) + [Event(planned[k], false)];
    assert after == before + events;
    assert after[..|before|] == before;
    assert after[|before|..] == events;
  }

  /** The actions `done` successful, then `a` failed, where `done` and `a`
      begin `planned`. */
  lemma EmittedFailAfter(before: seq<Event>, done: seq<Action>, a: Action, planned: seq<Action>)
    requires |done| < |planned| && planned[..|done| + 1] == done + [a]
    ensures Emitted(before, before + Succeeded(done) + [Event(a, false)], planned, false)
  {
    var k := |done|;
    assert planned[..k] == planned[..k + 1][..k] == done;
    assert planned[k] == planned[..k + 1][k] == a;
    EmittedFailAt(before, planned, k);
  }

  /** A failed run of a prefix of `planned` is a failed run of `planned`:
      whatever came after the failure was never attempted. */
  lemma EmittedStop(l0: seq<Event>, l1: seq<Event>, planned: seq<Action>, k: nat)
    requires k <= |planned|
    requires Emitted(l0, l1, planned[..k], false)
    ensures Emitted(l0, l1, planned, false)
  {
    var events := l1[|l0|..];
    var m := |events| - 1;
    assert planned[..k][..m] == planned[..m];
    assert planned[..k][m] == planned[m];
  }

  /** The pointer device: `mouse::up`, `mouse::down` and `mouse::move_to`.
      Whether the device succeeds is not determined by the model. */
  class Device {
    /** Every action attempted so far, in order, with its success. */
    ghost var log: seq<Event>

    constructor ()
      ensures log == []
    {
      log := [];
    }

    /** Release the button. */
    method Up() returns (r: Outcome)
      modifies this
      ensures log == old(log) + [Event(Action.Up, r.Pass?)]
    {
      var ok: bool :| true;
      r := if ok then Pass else Fail(MyError("xdotool mouseup finished with failure"));
      log := log + [Event(Action.Up, ok)];
    }

    /** Press the button. */
    method Down() returns (r: Outcome)
      modifies this
      ensures log == old(log) + [Event(Action.Down, r.Pass?)]
    {
      var ok: bool :| true;
      r := if ok then Pass else Fail(MyError("xdotool mousedown finished with failure"));
      log := log + [Event(Action.Down, ok)];
    }

    /** Move the pointer to screen (x, y). */
    method MoveTo(x: real, y: real) returns (r: Outcome)
      modifies this
      ensures log == old(log) + [Event(Action.MoveTo(x, y), r.Pass?)]
    {
      var ok: bool :| true;
      r := if ok then Pass else Fail(MyError("xdotool mousemove finished with failure"));
      log := log + [Event(Action.MoveTo(x, y), ok)];
    }
  }
}
