/** The filter panel: four text fields and the debounce effect that, after
    every change of a field (and once on mount), clears the pending timer and
    arms a new one that hands the four values to the parent 400 time units
    later. Time is a discrete clock; a step at time `now` first lets a timer
    that is due by then fire. */
module Filters {
  import opened JsValue
  import opened Query

  /** The debounce delay, in clock units. */
  const Delay := 400

  datatype Field = Q | Rank | MinPrice | MaxPrice

  /** A pending `setTimeout`: when it fires, and the record its callback
      captured when it was armed. */
  datatype Timer = Timer(due: int, record: FilterParams)

  /** The panel's state: the four fields and at most one pending timer. */
  datatype Panel = Panel(q: string, rank: string, minPrice: string, maxPrice: string, timer: Option<Timer>)

  /** A change of one field to a new text at a point in time. */
  datatype Change = Change(field: Field, value: string, at: int)

  function Value(p: Panel, f: Field): string {
    match f
    case Q => p.q
    case Rank => p.rank
    case MinPrice => p.minPrice
    case MaxPrice => p.maxPrice
  }

  /** A field's setter: that field takes the value, nothing else changes. */
  function WithValue(p: Panel, f: Field, v: string): (r: Panel)
    ensures Value(r, f) == v && r.timer == p.timer
    ensures forall g :: g != f ==> Value(r, g) == Value(p, g)
  {
    match f
    case Q => p.(q := v)
    case Rank => p.(rank := v)
    case MinPrice => p.(minPrice := v)
    case MaxPrice => p.(maxPrice := v)
  }

  /** The record the timer's callback passes to the parent:
      `{q, rank, min_price: minPrice, max_price: maxPrice}`. */
  function Record(p: Panel): FilterParams {
    FilterParams(Some(p.q), Some(p.rank), Some(p.minPrice), Some(p.maxPrice))
  }

  /** The effect: the previous timer is cleared and one new timer is armed,
      `Delay` after `now`, capturing the current values. */
  function Arm(p: Panel, now: int): Panel {
    p.(timer := Some(Timer(now + Delay, Record(p))))
  }

  /** The first render at time `now`: four empty fields, and the effect has run. */
  function Mounted(now: int): Panel {
    Arm(Panel("", "", "", "", None), now)
  }

  /** The clock reaching `now`: a timer due by then fires, handing its
      record to the parent, and is no longer pending. */
  function Advance(p: Panel, now: int): (r: (Panel, Option<FilterParams>))
    ensures r.1.Some? <==> p.timer.Some? && p.timer.value.due <= now
    ensures r.1.Some? ==> r.1.value == p.timer.value.record && r.0.timer.None?
    ensures r.1.None? ==> r.0 == p
    ensures forall f :: Value(r.0, f) == Value(p, f)
  {
    if p.timer.Some? && p.timer.value.due <= now then (p.(timer := None), Some(p.timer.value.record))
    else (p, None)
  }

  /** A change of field `f` to `v` at time `now`: the clock first reaches
      `now`; then the setter runs, and the effect runs again only when the
      value differs (React skips a render for an identical value). */
  function EditStep(p: Panel, f: Field, v: string, now: int): (r: (Panel, Option<FilterParams>))
    ensures r.1 == Advance(p, now).1
    ensures Value(r.0, f) == v
    ensures forall g :: g != f ==> Value(r.0, g) == Value(p, g)
    ensures Value(p, f) != v ==> r.0.timer == Some(Timer(now + Delay, Record(r.0)))
    ensures Value(p, f) == v ==> r.0 == Advance(p, now).0
  {
    var (p', out) := Advance(p, now);
    if Value(p', f) == v then (p', out) else (Arm(WithValue(p', f, v), now), out)
  }

  /** The pending timer's callback sees the current values: its captured
      record is the record of the fields as they are now. */
  predicate Current(p: Panel) {
    p.timer.Some? ==> p.timer.value.record == Record(p)
  }

  /** Both steps keep the pending timer current, and whatever fires is the
      record of the fields at firing time. */
  lemma StepsKeepCurrent(p: Panel, f: Field, v: string, now: int)
    requires Current(p)
    ensures Current(Advance(p, now).0) && Current(EditStep(p, f, v, now).0)
    ensures Advance(p, now).1.Some? ==> Advance(p, now).1.value == Record(p)
  {
  }

  /** Mounted at `t0`: nothing is emitted before `t0 + Delay`; at or after
      it, one all-empty record is, and then no timer is pending. */
  lemma MountEmission(t0: int, now: int)
    ensures Current(Mounted(t0))
    ensures now < t0 + Delay ==> Advance(Mounted(t0), now) == (Mounted(t0), None)
    ensures now >= t0 + Delay ==>
              Advance(Mounted(t0), now).1 == Some(EmptyFilters)
              && Advance(Mounted(t0), now).0.timer.None?
  {
  }

  /** Once the timer has fired, no step emits until a field changes again. */
  lemma NoTimerNoEmission(p: Panel, now: int)
    requires p.timer.None?
    ensures Advance(p, now) == (p, None)
  {
  }

  /** A sequence of changes applied one after the other, with every record
      emitted along the way. */
  function Run(p: Panel, cs: seq<Change>): (Panel, seq<FilterParams>)
    decreases |cs|
  {
    if cs == [] then (p, [])
    else
      var (p', out) := EditStep(p, cs[0].field, cs[0].value, cs[0].at);
      var (last, outs) := Run(p', cs[1..]);
      (last, (if out.Some? then [out.value] else []) + outs)
  }

  /** The field values once every change is applied, ignoring timers. */
  function ApplyValues(p: Panel, cs: seq<Change>): Panel
    decreases |cs|
  {
    if cs == [] then p else ApplyValues(WithValue(p, cs[0].field, cs[0].value), cs[1..])
  }

  /** Each change comes less than `Delay` after the previous one. */
  predicate Quick(cs: seq<Change>) {
    forall i :: 0 < i < |cs| ==> cs[i - 1].at <= cs[i].at < cs[i - 1].at + Delay
  }

  /** Each change really alters its field. */
  predicate Typed(p: Panel, cs: seq<Change>)
    decreases |cs|
  {
    cs == [] || (Value(p, cs[0].field) != cs[0].value && Typed(WithValue(p, cs[0].field, cs[0].value), cs[1..]))
  }

  /** A burst of changes, each less than `Delay` after the previous and the
      first before any pending timer is due, emits nothing while it lasts
      and leaves one timer, due `Delay` after the last change, carrying the
      values after the last change. */
  lemma {:induction false} Burst(p: Panel, cs: seq<Change>)
    requires |cs| >= 1 && Quick(cs) && Typed(p, cs)
    requires p.timer.None? || cs[0].at < p.timer.value.due
    ensures Run(p, cs).1 == []
    ensures Run(p, cs).0.timer == Some(Timer(cs[|cs| - 1].at + Delay, Record(ApplyValues(p, cs))))
    ensures Record(Run(p, cs).0) == Record(ApplyValues(p, cs))
    decreases |cs|
  {
    var c := cs[0];
    var p1 := Arm(WithValue(p, c.field, c.value), c.at);
    assert EditStep(p, c.field, c.value, c.at) == (p1, None);
    if |cs| > 1 {
      assert Quick(cs[1..]) by {
        forall i | 0 < i < |cs[1..]|
          ensures cs[1..][i - 1].at <= cs[1..][i].at < cs[1..][i - 1].at + Delay
        {
          assert cs[1..][i - 1] == cs[i] && cs[1..][i] == cs[i + 1];
        }
      }
      assert Typed(WithValue(p, c.field, c.value), cs[1..]);
      TypedIgnoresTimer(WithValue(p, c.field, c.value), p1, cs[1..]);
      assert cs[1] == cs[1..][0];
      Burst(p1, cs[1..]);
      assert cs[|cs| - 1] == cs[1..][|cs[1..]| - 1];
      ApplyValuesIgnoresTimer(WithValue(p, c.field, c.value), p1, cs[1..]);
    } else {
      assert cs[1..] == [];
    }
  }

  /** Whether changes alter their fields does not depend on the timer. */
  lemma {:induction false} TypedIgnoresTimer(p: Panel, p': Panel, cs: seq<Change>)
    requires p.(timer := None) == p'.(timer := None)
    requires Typed(p, cs)
    ensures Typed(p', cs)
    decreases |cs|
  {
    if cs != [] {
      var c := cs[0];
      TypedIgnoresTimer(WithValue(p, c.field, c.value), WithValue(p', c.field, c.value), cs[1..]);
    }
  }

  /** The record after applying changes does not depend on the timer. */
  lemma {:induction false} ApplyValuesIgnoresTimer(p: Panel, p': Panel, cs: seq<Change>)
    requires p.(timer := None) == p'.(timer := None)
    ensures Record(ApplyValues(p, cs)) == Record(ApplyValues(p', cs))
    decreases |cs|
  {
    if cs != [] {
      var c := cs[0];
      ApplyValuesIgnoresTimer(WithValue(p, c.field, c.value), WithValue(p', c.field, c.value), cs[1..]);
    }
  }

  /** After a burst, the clock emits nothing before the timer is due and
      exactly the record after the last change once it is; nothing more
      follows. */
  lemma BurstSettles(p: Panel, cs: seq<Change>, early: int, late: int, later: int)
    requires |cs| >= 1 && Quick(cs) && Typed(p, cs)
    requires p.timer.None? || cs[0].at < p.timer.value.due
    requires early < cs[|cs| - 1].at + Delay <= late
    ensures Advance(Run(p, cs).0, early).1 == None
    ensures Advance(Run(p, cs).0, late).1 == Some(Record(ApplyValues(p, cs)))
    ensures Advance(Advance(Run(p, cs).0, late).0, later).1 == None
  {
    Burst(p, cs);
  }

  /** Applying changes leaves each field at the value of the last change
      to it, or at its old value when no change touches it. */
  lemma {:induction false} ApplyValuesLast(p: Panel, cs: seq<Change>, f: Field)
    ensures (forall i :: 0 <= i < |cs| ==> cs[i].field != f) ==> Value(ApplyValues(p, cs), f) == Value(p, f)
    ensures |cs| >= 1 && cs[|cs| - 1].field == f ==> Value(ApplyValues(p, cs), f) == cs[|cs| - 1].value
    decreases |cs|
  {
    if cs != [] {
      ApplyValuesLast(WithValue(p, cs[0].field, cs[0].value), cs[1..], f);
      if |cs| > 1 {
        assert cs[|cs| - 1] == cs[1..][|cs[1..]| - 1];
      }
      if forall i :: 0 <= i < |cs| ==> cs[i].field != f {
        assert forall i :: 0 <= i < |cs[1..]| ==> cs[1..][i].field != f by {
          forall i | 0 <= i < |cs[1..]| ensures cs[1..][i].field != f {
            assert cs[1..][i] == cs[i + 1];
          }
        }
      }
    }
  }

  /** A field ends at the value of the last change to it, even when later
      changes touch other fields. */
  lemma {:induction false} LastChangeTo(p: Panel, cs: seq<Change>, f: Field, i: int)
    requires 0 <= i < |cs| && cs[i].field == f
    requires forall j :: i < j < |cs| ==> cs[j].field != f
    ensures Value(ApplyValues(p, cs), f) == cs[i].value
    decreases |cs|
  {
    var p' := WithValue(p, cs[0].field, cs[0].value);
    if i == 0 {
      forall j | 0 <= j < |cs[1..]| ensures cs[1..][j].field != f {
        assert cs[1..][j] == cs[j + 1];
      }
      ApplyValuesLast(p', cs[1..], f);
    } else {
      forall j | i - 1 < j < |cs[1..]| ensures cs[1..][j].field != f {
        assert cs[1..][j] == cs[j + 1];
      }
      LastChangeTo(p', cs[1..], f, i - 1);
    }
  }

  /** The panel component's state, updated by its setters and its effect. */
  class FilterPanel {
    var q: string
    var rank: string
    var minPrice: string
    var maxPrice: string
    /** The handle of the pending timer, if any. */
    var timer: Option<Timer>

    function State(): Panel
      reads this
    {
      Panel(q, rank, minPrice, maxPrice, timer)
    }

    predicate Valid()
      reads this
    {
      Current(State())
    }

    /** Mounted at `now`: four empty fields, and the mount effect has armed a timer. */
    constructor (now: int)
      ensures Valid() && State() == Mounted(now)
    {
      q, rank, minPrice, maxPrice := "", "", "", "";
      timer := None;
      new;
      timer := Some(Timer(now + Delay, Record(State())));
    }

    /** `tick(now)`: a due timer fires and hands the current values to the parent. */
    method Tick(now: int) returns (emitted: Option<FilterParams>)
      requires Valid()
      modifies this
      ensures Valid()
      ensures (State(), emitted) == Advance(old(State()), now)
      ensures emitted.Some? ==> emitted.value == Record(old(State()))
    {
      emitted := None;
      if timer.Some? && timer.value.due <= now {
        emitted := Some(timer.value.record);
        timer := None;
      }
    }

    /** `edit(field, value, now)`: any due timer fires first; then the
        setter, and when the value changed, the effect's cleanup clears the
        pending timer and the effect arms a new one. */
    method Edit(field: Field, value: string, now: int) returns (emitted: Option<FilterParams>)
      requires Valid()
      modifies this
      ensures Valid()
      ensures (State(), emitted) == EditStep(old(State()), field, value, now)
    {
      emitted := Tick(now);
      if Value(State(), field) != value {
        match field {
          case Q => q := value;
          case Rank => rank := value;
          case MinPrice => minPrice := value;
          case MaxPrice => maxPrice := value;
        }
        timer := None;
        timer := Some(Timer(now + Delay, Record(State())));
      }
    }
  }
}
