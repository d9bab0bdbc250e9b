/** The bookkeeping record for one multi-channel XRIT frame (`GroupData`):
    three fixed channel slots, a dictionary of named extra channels, six
    "processed" flags, retry/failure markers and a creation timestamp.
    Completeness and timeout are derived on every read; `ForceComplete` is
    the one mutator. The wall clock is an explicit `now` argument. */
module GroupData {
  import opened Int32
  import opened Optional

  /** Seconds after creation at which an unprocessed group is stale (2 h). */
  const DATA_TIMEOUT: int := 2 * 3600

  /** The per-channel segment organizer, reduced to the one thing the group
      reads from it: whether all of its segments have arrived. */
  datatype Channel = Channel(isComplete: bool)

  datatype Group = Group(
    satelliteName: string,
    regionName: string,
    frameTime: int,
    visible: Channel,
    infrared: Channel,
    waterVapour: Channel,
    otherData: map<string, Channel>,
    isProcessed: bool,
    isFalseColorProcessed: bool,
    isVisibleProcessed: bool,
    isInfraredProcessed: bool,
    isWaterVapourProcessed: bool,
    isOtherDataProcessed: bool,
    cropImage: bool,
    retryCount: int32,
    failed: bool,
    created: int32)

  /** Reference meaning of "every extra channel is complete". */
  predicate AllComplete(other: map<string, Channel>) {
    forall name :: name in other ==> other[name].isComplete
  }

  /** Reference meaning of a complete group: every channel, fixed or extra, is complete. */
  predicate GroupComplete(g: Group) {
    && g.visible.isComplete
    && g.infrared.isComplete
    && g.waterVapour.isComplete
    && AllComplete(g.otherData)
  }

  predicate AllProcessed(g: Group) {
    && g.isProcessed
    && g.isFalseColorProcessed
    && g.isVisibleProcessed
    && g.isInfraredProcessed
    && g.isWaterVapourProcessed
    && g.isOtherDataProcessed
  }

  predicate NoneProcessed(g: Group) {
    && !g.isProcessed
    && !g.isFalseColorProcessed
    && !g.isVisibleProcessed
    && !g.isInfraredProcessed
    && !g.isWaterVapourProcessed
    && !g.isOtherDataProcessed
  }

  /** `a` and `b` agree on everything except the six processing flags. */
  predicate SameExceptFlags(a: Group, b: Group) {
    && a.satelliteName == b.satelliteName
    && a.regionName == b.regionName
    && a.frameTime == b.frameTime
    && a.visible == b.visible
    && a.infrared == b.infrared
    && a.waterVapour == b.waterVapour
    && a.otherData == b.otherData
    && a.cropImage == b.cropImage
    && a.retryCount == b.retryCount
    && a.failed == b.failed
    && a.created == b.created
  }

  /** The parameterless constructor. `now` is the timestamp clock and
      `frameTime` the calendar clock read at construction; `blank` is the
      state of a freshly constructed channel organizer. */
  function NewGroup(now: int32, frameTime: int, blank: Channel): (g: Group)
    ensures g.satelliteName == "Unknown" && g.regionName == "Unknown"
    ensures g.frameTime == frameTime
    ensures g.visible == g.infrared == g.waterVapour == blank
    ensures |g.otherData| == 0
    ensures NoneProcessed(g)
    ensures !g.cropImage && !g.failed && g.retryCount == 0
    ensures g.created == now
    ensures !TimedOut(g, now)
    ensures GroupComplete(g) <==> blank.isComplete
  {
    Group("Unknown", "Unknown", frameTime, blank, blank, blank, map[],
          false, false, false, false, false, false,
          false, 0, false, now)
  }

  /** Linq's seedless `Aggregate((x, y) => x & y)` over a sequence of flags:
      a left fold seeded with the first element. On an empty sequence Linq
      throws `InvalidOperationException`, modelled as `None`. */
  function Aggregate(xs: seq<bool>): (r: Option<bool>)
    ensures r.None? <==> |xs| == 0
    ensures r.Some? ==> (r.value <==> forall i :: 0 <= i < |xs| ==> xs[i])
  {
    if |xs| == 0 then None
    else if |xs| == 1 then Some(xs[0])
    else
      var prefix := Aggregate(xs[..|xs| - 1]);
      Some(prefix.value && xs[|xs| - 1])
  }

  /** `OtherData.Select(x => x.Value.IsComplete)`: the completeness flag of
      every extra channel, in the dictionary's (unspecified) enumeration
      order, which `keys` records: entry `i` is the flag of channel `keys[i]`,
      and every channel appears exactly once. */
  method CompletenessFlags(other: map<string, Channel>) returns (xs: seq<bool>, ghost keys: seq<string>)
    ensures |xs| == |keys| == |other|
    ensures forall i :: 0 <= i < |keys| ==> keys[i] in other && xs[i] == other[keys[i]].isComplete
    ensures forall i, j :: 0 <= i < j < |keys| ==> keys[i] != keys[j]
    ensures forall name :: name in other ==> name in keys
    ensures (forall i :: 0 <= i < |xs| ==> xs[i]) <==> AllComplete(other)
  {
    xs := [];
    keys := [];
    var rest := other.Keys;
    ghost var done: set<string> := {};
    while rest != {}
      invariant done + rest == other.Keys
      invariant done !! rest
      invariant |xs| == |keys| == |done|
      invariant forall i :: 0 <= i < |keys| ==> keys[i] in done && xs[i] == other[keys[i]].isComplete
      invariant forall i, j :: 0 <= i < j < |keys| ==> keys[i] != keys[j]
      invariant forall name :: name in done ==> name in keys
      decreases |rest|
    {
      var name :| name in rest;
      xs := xs + [other[name].isComplete];
      keys := keys + [name];
      rest := rest - {name};
      done := done + {name};
    }
    assert done == other.Keys;
    forall name | name in other
      ensures exists i :: 0 <= i < |keys| && keys[i] == name
    {
      assert name in keys;
    }
  }

  /** `OtherDataIsComplete`: an empty dictionary is vacuously complete (and the
      count guard keeps the seedless `Aggregate` from throwing); otherwise the
      conjunction of every entry's completeness. */
  method OtherDataIsComplete(other: map<string, Channel>) returns (b: bool)
    ensures b <==> AllComplete(other)
  {
    if |other| == 0 {
      return true;
    }
    var flags, _ := CompletenessFlags(other);
    b := Aggregate(flags).value;
  }

  /** `IsComplete`: the three fixed channels and the extra channels are all complete. */
  method IsComplete(g: Group) returns (b: bool)
    ensures b <==> GroupComplete(g)
  {
    var other := OtherDataIsComplete(g.otherData);
    b := g.visible.isComplete && g.infrared.isComplete && g.waterVapour.isComplete && other;
  }

  /** `Timeout`: more than `DATA_TIMEOUT` seconds have passed since creation.
      The difference is taken in unchecked 32-bit arithmetic, as in C#. */
  function TimedOut(g: Group, now: int32): (r: bool)
    ensures InRange(now as int - g.created as int) ==> (r <==> now as int > g.created as int + DATA_TIMEOUT)
  {
    Wrap(now as int - g.created as int) as int > DATA_TIMEOUT
  }

  /** `ForceComplete`: marks every derived product as processed and changes
      nothing else, so neither completeness nor timeout is affected. */
  function ForceComplete(g: Group): (r: Group)
    ensures AllProcessed(r)
    ensures SameExceptFlags(g, r)
    ensures GroupComplete(r) <==> GroupComplete(g)
    ensures forall now :: TimedOut(r, now) == TimedOut(g, now)
  {
    g.(isProcessed := true,
       isFalseColorProcessed := true,
       isVisibleProcessed := true,
       isInfraredProcessed := true,
       isWaterVapourProcessed := true,
       isOtherDataProcessed := true)
  }

  lemma ForceCompleteIdempotent(g: Group)
    ensures ForceComplete(ForceComplete(g)) == ForceComplete(g)
  {
  }

  /** Without the `Count == 0` guard, an empty dictionary would reach the
      seedless `Aggregate`, which has no value to return. */
  lemma EmptyOtherDataNeedsGuard()
    ensures Aggregate([]) == None
    ensures AllComplete(map[])
  {
  }

  /** The timeout boundary: still fresh exactly `DATA_TIMEOUT` seconds after
      creation, stale one second later. */
  lemma TimeoutBoundary(g: Group)
    requires g.created as int + DATA_TIMEOUT + 1 <= MAX
    ensures !TimedOut(g, (g.created as int + DATA_TIMEOUT) as int32)
    ensures TimedOut(g, (g.created as int + DATA_TIMEOUT + 1) as int32)
  {
  }

  /** Once stale, a group stays stale as the clock advances, as long as the
      elapsed time fits in a C# `int`. */
  lemma TimeoutMonotone(g: Group, earlier: int32, later: int32)
    requires earlier <= later
    requires InRange(earlier as int - g.created as int)
    requires InRange(later as int - g.created as int)
    requires TimedOut(g, earlier)
    ensures TimedOut(g, later)
  {
  }
}
