/**
 * The publish markers drawn over the sensor chart: one record per
 * published message, aged by one step on each sensor update, dropped once
 * it leaves the window, and marked when the broker acknowledges it.
 */
module Sender {
  import opened Common
  import opened Lists
  import opened Events
  import Sensor
  import Mqtt

  /**
   * One marker. `value` is how many sensor updates ago the message was
   * published, negated; it is a `Double` in the app but only ever moves in
   * whole steps from 0.
   */
  datatype DataModel = DataModel(id: UInt16, value: int, sended: bool)

  /** `.init(id:)`: a marker at 0, not yet acknowledged. */
  function Init(id: UInt16): (r: DataModel)
    ensures r.id == id && r.value == 0 && !r.sended
  {
    DataModel(id, 0, false)
  }

  /** `move`: one step older. */
  function Move(m: DataModel): (r: DataModel)
    ensures r.id == m.id && r.sended == m.sended && r.value == m.value - 1
  {
    m.(value := m.value - 1)
  }

  /** `send`: acknowledged. */
  function Send(m: DataModel): (r: DataModel)
    ensures r.id == m.id && r.value == m.value && r.sended
  {
    m.(sended := true)
  }

  lemma SendIdempotent(m: DataModel)
    ensures Send(Send(m)) == Send(m)
  {
  }

  /** Still inside a window of `count` updates. */
  predicate Fresh(m: DataModel, count: int) {
    m.value > -count
  }

  /** `filter { $0.value > -count }`. */
  function Filter(s: seq<DataModel>, count: int): (r: seq<DataModel>)
    ensures |r| <= |s|
    ensures forall m :: m in r ==> m in s && Fresh(m, count)
    ensures forall m :: m in s && Fresh(m, count) ==> m in r
  {
    if s == [] then []
    else
      var front, last := s[..|s| - 1], s[|s| - 1];
      assert s == front + [last];
      Filter(front, count) + (if Fresh(last, count) then [last] else [])
  }

  /** The indices of the markers that have left the window. */
  function Expired(s: seq<DataModel>, count: int): set<nat> {
    set i: nat | i < |s| && !Fresh(s[i], count)
  }

  /**
   * The filter removes exactly the expired markers, so the survivors
   * keep their relative order (see `Lists.RemoveAtOffsets`).
   */
  lemma {:induction false} FilterRemovesExpired(s: seq<DataModel>, count: int)
    ensures Filter(s, count) == RemoveAtOffsets(s, Expired(s, count))
  {
    if s != [] {
      var front := s[..|s| - 1];
      FilterRemovesExpired(front, count);
      RemoveAtOffsetsAgrees(front, Expired(front, count), Expired(s, count));
    }
  }

  /** One sensor update applied to the marker list. */
  function Tick(s: seq<DataModel>, count: int): (r: seq<DataModel>)
    ensures |r| <= |s|
    ensures forall m :: m in r <==> Fresh(m, count) && exists i :: 0 <= i < |s| && m == Move(s[i])
  {
    Filter(Map(s, Move), count)
  }

  /** The filter works marker by marker, so it distributes over concatenation. */
  lemma {:induction false} FilterAppend(a: seq<DataModel>, b: seq<DataModel>, count: int)
    ensures Filter(a + b, count) == Filter(a, count) + Filter(b, count)
    decreases |b|
  {
    if b == [] {
      assert a + b == a;
    } else {
      var front, last := b[..|b| - 1], b[|b| - 1];
      var tail := if Fresh(last, count) then [last] else [];
      calc {
        Filter(a + b, count);
      == { assert (a + b)[..|a + b| - 1] == a + front && (a + b)[|a + b| - 1] == last; }
        Filter(a + front, count) + tail;
      == { FilterAppend(a, front, count); }
        Filter(a, count) + Filter(front, count) + tail;
      }
    }
  }

  /** An update ages and filters each marker independently of the others. */
  lemma TickAppend(a: seq<DataModel>, b: seq<DataModel>, count: int)
    ensures Tick(a + b, count) == Tick(a, count) + Tick(b, count)
  {
    assert Map(a + b, Move) == Map(a, Move) + Map(b, Move);
    FilterAppend(Map(a, Move), Map(b, Move), count);
  }

  /** Any number of updates likewise treat the two parts of a list separately. */
  lemma {:induction false} TicksAppend(a: seq<DataModel>, b: seq<DataModel>, count: int, k: nat)
    ensures Ticks(a + b, count, k) == Ticks(a, count, k) + Ticks(b, count, k)
    decreases k
  {
    if k > 0 {
      TickAppend(a, b, count);
      TicksAppend(Tick(a, count), Tick(b, count), count, k - 1);
    }
  }

  function Ticks(s: seq<DataModel>, count: int, k: nat): seq<DataModel>
    decreases k
  {
    if k == 0 then s else Ticks(Tick(s, count), count, k - 1)
  }

  lemma {:induction false} TicksOfNothing(count: int, k: nat)
    ensures Ticks([], count, k) == []
  {
    if k > 0 {
      assert Tick([], count) == [];
      TicksOfNothing(count, k - 1);
    }
  }

  /** One update of a lone marker: it ages by one, and goes once it leaves the window. */
  lemma TickSingle(m: DataModel, count: int)
    ensures Tick([m], count) == if Fresh(Move(m), count) then [Move(m)] else []
  {
    assert Map([m], Move) == [Move(m)];
    assert [Move(m)][..0] == [];
  }

  /**
   * A marker inside the window stays, `k` updates older, for as long as it
   * is still inside; then it is gone. A fresh marker is therefore drawn
   * for `count - 1` updates.
   */
  lemma {:induction false} MarkerLifetime(m: DataModel, count: int, k: nat)
    requires Fresh(m, count)
    ensures Ticks([m], count, k) == if m.value - k > -count then [m.(value := m.value - k)] else []
    decreases k
  {
    if k > 0 {
      var m' := Move(m);
      TickSingle(m, count);
      assert Ticks([m], count, k) == Ticks(Tick([m], count), count, k - 1);
      if Fresh(m', count) {
        MarkerLifetime(m', count, k - 1);
        assert m'.(value := m'.value - (k - 1)) == m.(value := m.value - k);
      } else {
        TicksOfNothing(count, k - 1);
      }
    } else {
      assert m.(value := m.value - k) == m;
    }
  }

  /**
   * Wherever it stands in the list, a marker inside the window lives as
   * `MarkerLifetime` says, and its neighbours' updates do not affect it.
   */
  lemma MarkerLifetimeInList(a: seq<DataModel>, m: DataModel, b: seq<DataModel>, count: int, k: nat)
    requires Fresh(m, count)
    ensures Ticks(a + [m] + b, count, k) ==
      Ticks(a, count, k) + (if m.value - k > -count then [m.(value := m.value - k)] else []) + Ticks(b, count, k)
  {
    TicksAppend(a + [m], b, count, k);
    TicksAppend(a, [m], count, k);
    MarkerLifetime(m, count, k);
  }

  /** The position of the first marker with `id`, if any. */
  function IndexOfId(s: seq<DataModel>, id: UInt16): (r: Option<nat>)
    ensures r.Some? ==> r.value < |s| && s[r.value].id == id && forall j :: 0 <= j < r.value ==> s[j].id != id
    ensures r.None? ==> forall j :: 0 <= j < |s| ==> s[j].id != id
  {
    if s == [] then None
    else if s[0].id == id then Some(0)
    else match IndexOfId(s[1..], id)
      case None => None
      case Some(k) => Some(k + 1)
  }

  /**
   * What an acknowledgement does: the first marker with `id` is marked,
   * nothing else changes; with no such marker the list is unchanged.
   */
  function MarkFirst(s: seq<DataModel>, id: UInt16): (r: seq<DataModel>)
    ensures |r| == |s|
    ensures IndexOfId(s, id).None? ==> r == s
    ensures IndexOfId(s, id).Some? ==> r == s[IndexOfId(s, id).value := Send(s[IndexOfId(s, id).value])]
  {
    if s == [] then []
    else if s[0].id == id then [Send(s[0])] + s[1..]
    else [s[0]] + MarkFirst(s[1..], id)
  }

  /** The closures the view model registers, one per event. */
  datatype Handler = AgeMarkers | AppendMarker | MarkAcked

  class SenderViewModel {
    const sensorData: Sensor.SensorViewModel<Handler>
    var data: seq<DataModel>

    /** Registers this object with the sensor's change event and the two publish events. */
    constructor(sensorData: Sensor.SensorViewModel<Handler>, mqqt: Mqtt.MqttViewModel<Handler>)
      requires mqqt.didPublishMessage != mqqt.didPublishAck
      modifies sensorData.onChange, mqqt.didPublishMessage, mqqt.didPublishAck
      ensures this.sensorData == sensorData && data == []
      ensures sensorData.onChange.listeners == old(sensorData.onChange.listeners)[this := Listener(true, AgeMarkers)]
      ensures mqqt.didPublishMessage.listeners == old(mqqt.didPublishMessage.listeners)[this := Listener(true, AppendMarker)]
      ensures mqqt.didPublishAck.listeners == old(mqqt.didPublishAck.listeners)[this := Listener(true, MarkAcked)]
    {
      this.sensorData := sensorData;
      data := [];
      new;
      sensorData.Subscribe(this, AgeMarkers);
      mqqt.didPublishMessage.AddListener(this, AppendMarker);
      mqqt.didPublishAck.AddListener(this, MarkAcked);
    }

    /** A sensor update: every marker moves one step, then those outside the window go. */
    method OnSensorChange()
      modifies this`data
      ensures data == Tick(old(data), sensorData.count)
    {
      var i := 0;
      while i < |data|
        invariant 0 <= i <= |data| == |old(data)|
        invariant forall k :: 0 <= k < i ==> data[k] == Move(old(data)[k])
        invariant forall k :: i <= k < |data| ==> data[k] == old(data)[k]
      {
        data := data[i := Move(data[i])];
        i := i + 1;
      }
      assert data == Map(old(data), Move);
      data := Filter(data, sensorData.count);
    }

    /** A message was published with packet identifier `id`: a new marker at the end. */
    method OnPublished(id: UInt16)
      modifies this`data
      ensures data == old(data) + [Init(id)]
    {
      data := data + [Init(id)];
    }

    /** The broker acknowledged `id`: the first marker with that identifier is marked. */
    method OnAck(id: UInt16)
      modifies this`data
      ensures data == MarkFirst(old(data), id)
    {
      var i := 0;
      while i < |data|
        invariant 0 <= i <= |data| && data == old(data)
        invariant forall j :: 0 <= j < i ==> data[j].id != id
      {
        if data[i].id == id {
          data := data[i := Send(data[i])];
          return;
        }
        i := i + 1;
      }
    }
  }
}
