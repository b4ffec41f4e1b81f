/**
 * The accelerometer side of the app: a fixed window of the most recent
 * readings per axis, and the view model that pushes each new reading into
 * the three windows and then notifies its listeners.
 */
module Sensor {
  import opened Common
  import opened Events

  /** Length of each axis window, and the `count` the view model reports. */
  const WindowLength: nat := 200

  /** `add` on a window: the oldest value goes, the new one is last. */
  function Slide(s: seq<real>, v: real): (r: seq<real>)
    requires |s| > 0
    ensures |r| == |s|
    ensures r[|r| - 1] == v
    ensures forall i :: 0 <= i < |s| - 1 ==> r[i] == s[i + 1]
  {
    s[1..] + [v]
  }

  /** The window after `add` is called with each of `vs` in turn. */
  function SlideAll(s: seq<real>, vs: seq<real>): (r: seq<real>)
    requires |s| > 0
    ensures |r| == |s|
    decreases |vs|
  {
    if vs == [] then s else SlideAll(Slide(s, vs[0]), vs[1..])
  }

  /**
   * The window always holds the latest readings: after `k` additions its
   * last `min(k, n)` values are the last readings in arrival order, and
   * the rest are the oldest values that were not yet pushed out.
   */
  lemma {:induction false} SlideAllKeepsLatest(s: seq<real>, vs: seq<real>)
    requires |s| > 0
    ensures |vs| <= |s| ==> SlideAll(s, vs) == s[|vs|..] + vs
    ensures |vs| >= |s| ==> SlideAll(s, vs) == vs[|vs| - |s|..]
    decreases |vs|
  {
    if vs != [] {
      var s' := Slide(s, vs[0]);
      SlideAllKeepsLatest(s', vs[1..]);
      if |vs| <= |s| {
        assert s'[|vs| - 1..] == s[|vs|..] + [vs[0]];
        assert [vs[0]] + vs[1..] == vs;
      } else {
        assert vs[1..][|vs| - 1 - |s|..] == vs[|vs| - |s|..];
      }
    }
  }

  /** A snapshot of one axis, as the published `data` array holds it. */
  datatype Series = Series(id: Uuid, axis: string, value: seq<real>)

  /** One axis: an identity, its name, and its window of readings. */
  class DataModel {
    const id: Uuid
    const axis: string
    const value: array<real>

    constructor(id: Uuid, axis: string)
      ensures this.id == id && this.axis == axis && fresh(value)
      ensures value.Length == WindowLength
      ensures forall i :: 0 <= i < value.Length ==> value[i] == 0.0
    {
      this.id := id;
      this.axis := axis;
      value := new real[WindowLength](_ => 0.0);
    }

    /** `removeFirst` then `append`: shift every value one slot left, put `v` last. */
    method Add(v: real)
      requires value.Length > 0
      modifies value
      ensures value[..] == Slide(old(value[..]), v)
    {
      var n := value.Length;
      var i := 0;
      while i < n - 1
        invariant 0 <= i <= n - 1
        invariant forall k :: 0 <= k < i ==> value[k] == old(value[k + 1])
        invariant forall k :: i <= k < n ==> value[k] == old(value[k])
      {
        value[i] := value[i + 1];
        i := i + 1;
      }
      value[n - 1] := v;
    }

    function Snapshot(): (s: Series)
      reads value
      ensures s.id == id && s.axis == axis && s.value == value[..]
    {
      Series(id, axis, value[..])
    }
  }

  /** An accelerometer sample; the hardware is not part of the model. */
  datatype Acceleration = Acceleration(x: real, y: real, z: real)

  class SensorViewModel<A> {
    var count: int
    const x: DataModel
    const y: DataModel
    const z: DataModel
    var data: seq<Series>
    const onChange: Event<int, A>

    ghost predicate Valid()
      reads this, x, y, z
    {
      && x.value != y.value && y.value != z.value && x.value != z.value
      && x.value.Length == y.value.Length == z.value.Length == WindowLength
      && count == WindowLength
    }

    /** The three axes get the identities `xId`, `yId`, `zId` from the UUID generator. */
    constructor(xId: Uuid, yId: Uuid, zId: Uuid)
      ensures Valid() && fresh(onChange) && fresh(x.value) && fresh(y.value) && fresh(z.value)
      ensures x.axis == "x" && y.axis == "y" && z.axis == "z"
      ensures forall i :: 0 <= i < WindowLength ==> x.value[i] == 0.0 && y.value[i] == 0.0 && z.value[i] == 0.0
      ensures data == [] && onChange.listeners == map[]
    {
      count := 200;
      x := new DataModel(xId, "x");
      y := new DataModel(yId, "y");
      z := new DataModel(zId, "z");
      data := [];
      onChange := new Event();
    }

    /**
     * One motion update. When the manager has a sample, each axis gets its
     * component, the listeners are notified with `0`, and `data` becomes
     * snapshots of x, y and z in that order. Without a sample nothing happens.
     */
    method UpdateProperties(sample: Option<Acceleration>) returns (calls: seq<Call<int, A>>)
      requires Valid()
      modifies this, x.value, y.value, z.value, onChange
      ensures Valid() && count == old(count)
      ensures sample.None? ==>
        && calls == [] && data == old(data)
        && x.value[..] == old(x.value[..]) && y.value[..] == old(y.value[..]) && z.value[..] == old(z.value[..])
        && onChange.listeners == old(onChange.listeners)
      ensures sample.Some? ==>
        && x.value[..] == Slide(old(x.value[..]), sample.value.x)
        && y.value[..] == Slide(old(y.value[..]), sample.value.y)
        && z.value[..] == Slide(old(z.value[..]), sample.value.z)
        && data == [x.Snapshot(), y.Snapshot(), z.Snapshot()]
        && onChange.listeners == Live(old(onChange.listeners))
        && (forall k :: k in Targets(calls) <==> k in LiveKeys(old(onChange.listeners)))
        && CalledOnce(calls)
        && (forall c :: c in calls ==>
              c.subject == 0 && c.listener in old(onChange.listeners)
              && c.action == old(onChange.listeners)[c.listener].action)
    {
      calls := [];
      if sample.Some? {
        var a := sample.value;
        x.Add(a.x);
        y.Add(a.y);
        z.Add(a.z);
        calls := onChange.Notify(0);
        data := [x.Snapshot(), y.Snapshot(), z.Snapshot()];
      }
    }

    /** `subscribe`: register `listener` for change notifications. */
    method Subscribe(listener: object, action: A)
      modifies onChange
      ensures onChange.listeners == old(onChange.listeners)[listener := Listener(true, action)]
    {
      onChange.AddListener(listener, action);
    }
  }
}
