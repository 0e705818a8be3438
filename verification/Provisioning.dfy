/**
  Provisioning a realm: applications are installed by concurrent tasks that finish in any order,
  then measured into the realm's extensible measurement (REM) in the order of the request.
 */
module Provisioning {
  import opened Outcomes
  import opened OciInstall

  type Id = nat

  datatype ProvisionError = AlreadyProvisioned | LauncherFailed | InstallFailed | AppNotFound | AppHasNoMeasurements | ExtensionFailed | StartFailed

  // ----- chunks -----

  /** The data in pieces of `n` bytes; the last may be shorter. */
  function Chunks(data: Bytes, n: nat): seq<Bytes>
    requires n > 0
    decreases |data|
  {
    if data == [] then [] else if |data| <= n then [data] else [data[..n]] + Chunks(data[n..], n)
  }

  function Joined(chunks: seq<Bytes>): Bytes {
    if chunks == [] then [] else chunks[0] + Joined(chunks[1..])
  }

  /** Together the pieces are the data. */
  lemma {:induction false} ChunksJoin(data: Bytes, n: nat)
    requires n > 0
    ensures Joined(Chunks(data, n)) == data
    decreases |data|
  {
    if |data| > n {
      ChunksJoin(data[n..], n);
      assert Chunks(data, n)[1..] == Chunks(data[n..], n);
      assert data[..n] + data[n..] == data;
    } else if data != [] {
      assert Chunks(data, n)[1..] == [];
    }
  }

  /** The pieces are non-empty, fit the limit, and only the last is short. */
  lemma {:induction false} ChunkSizes(data: Bytes, n: nat, i: nat)
    requires n > 0 && i < |Chunks(data, n)|
    ensures 0 < |Chunks(data, n)[i]| <= n && (i < |Chunks(data, n)| - 1 ==> |Chunks(data, n)[i]| == n)
    decreases |data|
  {
    if |data| > n && i > 0 {
      ChunkSizes(data[n..], n, i - 1);
      assert Chunks(data, n)[i] == Chunks(data[n..], n)[i - 1];
    }
  }

  lemma {:induction false} JoinedConcat(a: seq<Bytes>, b: seq<Bytes>)
    ensures Joined(a + b) == Joined(a) + Joined(b)
    decreases |a|
  {
    if a == [] {
      assert a + b == b;
    } else {
      assert (a + b)[0] == a[0] && (a + b)[1..] == a[1..] + b;
      JoinedConcat(a[1..], b);
    }
  }

  // ----- specification -----

  /** What an application contributes: its vendor data, then its image hash. */
  function Measurement(m: ApplicationMetadata): Bytes {
    Joined(m.vendorData) + m.imageHash
  }

  /** Each entry is the number of a task. */
  predicate Below(order: seq<nat>, count: nat) {
    forall i :: 0 <= i < |order| ==> order[i] < count
  }

  /** Tasks finish in the given order; collecting stops at the first that failed. */
  function Collected(apps: map<Id, Bytes>, ids: seq<Id>, outcomes: seq<Option<Bytes>>, order: seq<nat>): (bool, map<Id, Bytes>)
    requires |ids| == |outcomes| && Below(order, |ids|)
    decreases |order|
  {
    if order == [] then (true, apps)
    else
      match outcomes[order[0]]
      case None => (false, apps)
      case Some(m) => Collected(apps[ids[order[0]] := m], ids, outcomes, order[1..])
  }

  /** Extensions in turn until the hardware refuses one; `rsi` says which ones it takes. */
  function Extended(rem: seq<Bytes>, chunks: seq<Bytes>, rsi: nat -> bool): (bool, seq<Bytes>)
    decreases |chunks|
  {
    if chunks == [] then (true, rem)
    else if !rsi(|rem|) then (false, rem)
    else Extended(rem + [chunks[0]], chunks[1..], rsi)
  }

  function Measured(rem: seq<Bytes>, data: Bytes, extend: bool, n: nat, rsi: nat -> bool): (Option<ProvisionError>, seq<Bytes>)
    requires n > 0
  {
    if !extend then (None, rem)
    else if data == [] then (Some(AppHasNoMeasurements), rem)
    else
      var (ok, after) := Extended(rem, Chunks(data, n), rsi);
      (if ok then None else Some(ExtensionFailed), after)
  }

  function MeasuredAll(rem: seq<Bytes>, ids: seq<Id>, apps: map<Id, Bytes>, extend: bool, n: nat, rsi: nat -> bool)
    : (Option<ProvisionError>, seq<Bytes>)
    requires n > 0
    decreases |ids|
  {
    if ids == [] then (None, rem)
    else if ids[0] !in apps then (Some(AppNotFound), rem)
    else
      var (failure, after) := Measured(rem, apps[ids[0]], extend, n, rsi);
      if failure.Some? then (failure, after) else MeasuredAll(after, ids[1..], apps, extend, n, rsi)
  }

  /** Outcome, applications and REM log of one provisioning request. */
  function Provisioned(
    apps: map<Id, Bytes>, rem: seq<Bytes>, ids: seq<Id>, outcomes: seq<Option<Bytes>>, order: seq<nat>,
    extend: bool, n: nat, rsi: nat -> bool, launchers: bool, starts: bool)
    : (Option<ProvisionError>, map<Id, Bytes>, seq<Bytes>)
    requires n > 0 && |ids| == |outcomes| && Below(order, |ids|)
  {
    if apps != map[] then (Some(AlreadyProvisioned), apps, rem)
    else if ids != [] && !launchers then (Some(LauncherFailed), apps, rem)
    else
      var (installed, now) := Collected(apps, ids, outcomes, order);
      if !installed then (Some(InstallFailed), now, rem)
      else
        var (failure, log) := MeasuredAll(rem, ids, now, extend, n, rsi);
        (if failure.None? && !starts then Some(StartFailed) else failure, now, log)
  }

  // ----- the objects -----

  class Application {
    const id: Id
    var measurements: Bytes

    constructor (id: Id)
      ensures this.id == id && measurements == []
    {
      this.id, measurements := id, [];
    }

    /** The part of setup that records what was installed. */
    method Record(m: ApplicationMetadata)
      modifies this
      ensures measurements == old(measurements) + Measurement(m)
    {
      var i := 0;
      assert m.vendorData[0..] == m.vendorData;
      while i < |m.vendorData|
        invariant 0 <= i <= |m.vendorData|
        invariant measurements + Joined(m.vendorData[i..]) == old(measurements) + Joined(m.vendorData)
      {
        assert m.vendorData[i..][1..] == m.vendorData[i + 1..];
        measurements := measurements + m.vendorData[i];
        i := i + 1;
      }
      assert m.vendorData[i..] == [] && measurements + [] == measurements;
      measurements := measurements + m.imageHash;
      assert measurements == old(measurements) + (Joined(m.vendorData) + m.imageHash);
    }
  }

  class Manager {
    const extend: bool
    const chunk: nat
    var apps: map<Id, Bytes>
    var rem: seq<Bytes>

    constructor (extend: bool, chunk: nat)
      requires chunk > 0
      ensures this.extend == extend && this.chunk == chunk && apps == map[] && rem == []
    {
      this.extend, this.chunk, apps, rem := extend, chunk, map[], [];
    }

    method ExtendRem(data: Bytes, rsi: nat -> bool) returns (failure: Option<ProvisionError>)
      requires chunk > 0
      modifies this`rem
      ensures (failure, rem) == Measured(old(rem), data, extend, chunk, rsi)
    {
      if !extend { return None; }
      if data == [] { return Some(AppHasNoMeasurements); }
      var i := 0;
      assert data[0..] == data;
      while i < |data|
        invariant 0 <= i <= |data|
        invariant Extended(rem, Chunks(data[i..], chunk), rsi) == Extended(old(rem), Chunks(data, chunk), rsi)
      {
        var next := if i + chunk < |data| then i + chunk else |data|;
        var rest := Chunks(data[i..], chunk);
        assert rest[0] == data[i..next] && rest[1..] == Chunks(data[next..], chunk) by {
          assert data[i..][..next - i] == data[i..next] && data[i..][next - i..] == data[next..];
        }
        if !rsi(|rem|) { return Some(ExtensionFailed); }
        rem := rem + [data[i..next]];
        i := next;
      }
      return None;
    }

    method Provision(ids: seq<Id>, outcomes: seq<Option<Bytes>>, order: seq<nat>, rsi: nat -> bool, launchers: bool, starts: bool)
      returns (failure: Option<ProvisionError>)
      requires chunk > 0 && |ids| == |outcomes| && Below(order, |ids|)
      modifies this
      ensures (failure, apps, rem)
           == Provisioned(old(apps), old(rem), ids, outcomes, order, extend, chunk, rsi, launchers, starts)
    {
      if apps != map[] { return Some(AlreadyProvisioned); }
      if ids != [] && !launchers { return Some(LauncherFailed); }
      var i := 0;
      assert order[0..] == order;
      while i < |order|
        invariant 0 <= i <= |order|
        invariant Collected(apps, ids, outcomes, order[i..]) == Collected(old(apps), ids, outcomes, order)
        invariant rem == old(rem)
      {
        assert order[i..][0] == order[i] && order[i..][1..] == order[i + 1..];
        if outcomes[order[i]].None? { return Some(InstallFailed); }
        apps := apps[ids[order[i]] := outcomes[order[i]].value];
        i := i + 1;
      }
      i := 0;
      assert ids[0..] == ids;
      while i < |ids|
        invariant 0 <= i <= |ids|
        invariant Collected(old(apps), ids, outcomes, order) == (true, apps)
        invariant MeasuredAll(rem, ids[i..], apps, extend, chunk, rsi) == MeasuredAll(old(rem), ids, apps, extend, chunk, rsi)
      {
        assert ids[i..][0] == ids[i] && ids[i..][1..] == ids[i + 1..];
        if ids[i] !in apps { return Some(AppNotFound); }
        failure := ExtendRem(apps[ids[i]], rsi);
        if failure.Some? { return; }
        i := i + 1;
      }
      if !starts { return Some(StartFailed); }
      return None;
    }
  }

  // ----- the REM log of a successful request -----

  /** The log for given applications: their chunks in the order of the request. */
  function Log(ids: seq<Id>, apps: map<Id, Bytes>, n: nat): seq<Bytes>
    requires n > 0 && forall id :: id in ids ==> id in apps
    decreases |ids|
  {
    if ids == [] then []
    else
      assert ids[0] in ids;
      Chunks(apps[ids[0]], n) + Log(ids[1..], apps, n)
  }

  /** The log that the request and the installed images call for. */
  function LogOf(data: seq<Bytes>, n: nat): seq<Bytes>
    requires n > 0
    decreases |data|
  {
    if data == [] then [] else Chunks(data[0], n) + LogOf(data[1..], n)
  }

  /** Read in a row, the log is the measurements of all applications in the order of the request. */
  lemma {:induction false} LogJoins(data: seq<Bytes>, n: nat)
    requires n > 0
    ensures Joined(LogOf(data, n)) == Joined(data)
    decreases |data|
  {
    if data != [] {
      LogJoins(data[1..], n);
      ChunksJoin(data[0], n);
      JoinedConcat(Chunks(data[0], n), LogOf(data[1..], n));
    }
  }

  /** The measurements of an application begin with its vendor data, in order, and end with its image hash. */
  lemma MeasurementParts(m: ApplicationMetadata)
    ensures Joined(m.vendorData) <= Measurement(m)
    ensures Measurement(m)[|Joined(m.vendorData)|..] == m.imageHash
    ensures |m.vendorData| == 2 ==> m.vendorData[0] + m.vendorData[1] + m.imageHash == Measurement(m)
  {
    if |m.vendorData| == 2 {
      assert m.vendorData[1..][1..] == [] && Joined(m.vendorData[1..]) == m.vendorData[1] + [];
    }
  }

  /** Every task finishes once. */
  predicate IsOrder(order: seq<nat>, count: nat) {
    && Below(order, count)
    && (forall k :: 0 <= k < count ==> k in order)
    && (forall i, j :: 0 <= i < j < |order| ==> order[i] != order[j])
  }

  /** Tasks for the same id installed the same thing; so in particular where the ids are distinct. */
  predicate Agreeing(ids: seq<Id>, data: seq<Bytes>)
    requires |ids| == |data|
  {
    forall i, j :: 0 <= i < j < |ids| && ids[i] == ids[j] ==> data[i] == data[j]
  }

  function Installs(data: seq<Bytes>): (r: seq<Option<Bytes>>)
    ensures |r| == |data| && forall i :: 0 <= i < |r| ==> r[i] == Some(data[i])
  {
    seq(|data|, i requires 0 <= i < |data| => Some(data[i]))
  }

  /** The applications after all tasks have finished in the given order. */
  function AppsAfter(apps: map<Id, Bytes>, ids: seq<Id>, data: seq<Bytes>, order: seq<nat>): map<Id, Bytes>
    requires |ids| == |data| && Below(order, |ids|)
    decreases |order|
  {
    if order == [] then apps
    else AppsAfter(apps[ids[order[0]] := data[order[0]]], ids, data, order[1..])
  }

  lemma {:induction false} CollectedAll(apps: map<Id, Bytes>, ids: seq<Id>, outcomes: seq<Option<Bytes>>, order: seq<nat>)
    requires |ids| == |outcomes| && Below(order, |ids|)
    ensures Collected(apps, ids, outcomes, order).0 <==> forall i :: 0 <= i < |order| ==> outcomes[order[i]].Some?
    decreases |order|
  {
    if order != [] && outcomes[order[0]].Some? {
      CollectedAll(apps[ids[order[0]] := outcomes[order[0]].value], ids, outcomes, order[1..]);
      assert forall i :: 1 <= i < |order| ==> order[1..][i - 1] == order[i];
    }
  }

  lemma {:induction false} CollectedInstalls(apps: map<Id, Bytes>, ids: seq<Id>, data: seq<Bytes>, order: seq<nat>)
    requires |ids| == |data| && Below(order, |ids|)
    ensures Collected(apps, ids, Installs(data), order) == (true, AppsAfter(apps, ids, data, order))
    decreases |order|
  {
    if order != [] {
      CollectedInstalls(apps[ids[order[0]] := data[order[0]]], ids, data, order[1..]);
    }
  }

  lemma {:induction false} AppsAfterConcat(apps: map<Id, Bytes>, ids: seq<Id>, data: seq<Bytes>, a: seq<nat>, b: seq<nat>)
    requires |ids| == |data| && Below(a, |ids|) && Below(b, |ids|)
    ensures AppsAfter(apps, ids, data, a + b) == AppsAfter(AppsAfter(apps, ids, data, a), ids, data, b)
    decreases |a|
  {
    if a == [] {
      assert a + b == b;
    } else {
      assert (a + b)[0] == a[0] && (a + b)[1..] == a[1..] + b;
      AppsAfterConcat(apps[ids[a[0]] := data[a[0]]], ids, data, a[1..], b);
    }
  }

  /** Every finished task's id is there, and every entry comes from such a task or was there before. */
  lemma {:induction false} AppsAfterContents(apps: map<Id, Bytes>, ids: seq<Id>, data: seq<Bytes>, order: seq<nat>)
    requires |ids| == |data| && Below(order, |ids|)
    ensures var after := AppsAfter(apps, ids, data, order);
      && (forall i :: 0 <= i < |order| ==> ids[order[i]] in after)
      && (forall id :: id in apps ==> id in after)
      && (forall id :: id in after ==> (exists i :: 0 <= i < |order| && ids[order[i]] == id && after[id] == data[order[i]]) || (id in apps && after[id] == apps[id]))
    decreases |order|
  {
    if order != [] {
      var o := order[0];
      AppsAfterContents(apps[ids[o] := data[o]], ids, data, order[1..]);
      assert forall i :: 0 <= i < |order| - 1 ==> order[1..][i] == order[i + 1];
    }
  }

  /** Where tasks agree, every completion order leaves each application with its own measurements. */
  lemma AgreeingApps(ids: seq<Id>, data: seq<Bytes>, order: seq<nat>)
    requires |ids| == |data| && IsOrder(order, |ids|) && Agreeing(ids, data)
    ensures var after := AppsAfter(map[], ids, data, order);
      forall i :: 0 <= i < |ids| ==> ids[i] in after && after[ids[i]] == data[i]
  {
    AppsAfterContents(map[], ids, data, order);
    var after := AppsAfter(map[], ids, data, order);
    forall i | 0 <= i < |ids| ensures ids[i] in after && after[ids[i]] == data[i] {
      assert i in order;
      var k :| 0 <= k < |order| && ids[order[k]] == ids[i] && after[ids[i]] == data[order[k]];
    }
  }

  lemma {:induction false} LogFromData(ids: seq<Id>, apps: map<Id, Bytes>, data: seq<Bytes>, n: nat)
    requires n > 0 && |ids| == |data|
    requires forall i :: 0 <= i < |ids| ==> ids[i] in apps && apps[ids[i]] == data[i]
    ensures Log(ids, apps, n) == LogOf(data, n)
    decreases |ids|
  {
    if ids != [] { LogFromData(ids[1..], apps, data[1..], n); }
  }

  // ----- independence of the completion order -----

  function LogAfter(ids: seq<Id>, data: seq<Bytes>, order: seq<nat>, n: nat): seq<Bytes>
    requires n > 0 && |ids| == |data| && IsOrder(order, |ids|)
  {
    AppsCover(ids, data, order);
    Log(ids, AppsAfter(map[], ids, data, order), n)
  }

  lemma AppsCover(ids: seq<Id>, data: seq<Bytes>, order: seq<nat>)
    requires |ids| == |data| && IsOrder(order, |ids|)
    ensures forall id :: id in ids ==> id in AppsAfter(map[], ids, data, order)
  {
    AppsAfterContents(map[], ids, data, order);
    forall id | id in ids ensures id in AppsAfter(map[], ids, data, order) {
      var k :| 0 <= k < |ids| && ids[k] == id;
      assert k in order;
    }
  }

  /** The indices below `count` other than `i` and `j`. */
  function Others(count: nat, i: nat, j: nat): (r: seq<nat>)
    ensures forall k :: 0 <= k < |r| ==> r[k] < count && r[k] != i && r[k] != j
    ensures forall k :: 0 <= k < count && k != i && k != j ==> k in r
    ensures forall a, b :: 0 <= a < b < |r| ==> r[a] != r[b]
  {
    if count == 0 then []
    else if count - 1 == i || count - 1 == j then Others(count - 1, i, j)
    else Others(count - 1, i, j) + [count - 1]
  }

  /** If two measurements differ, so do the logs of every request that names the application. */
  lemma {:induction false} LogTells(ids: seq<Id>, apps: map<Id, Bytes>, id: Id, a: Bytes, b: Bytes, n: nat)
    requires n > 0 && id in ids && a != b && forall x :: x in ids ==> x == id || x in apps
    ensures Log(ids, apps[id := a], n) != Log(ids, apps[id := b], n)
    decreases |ids|
  {
    var ca, cb := Chunks(a, n), Chunks(b, n);
    ChunksJoin(a, n);
    ChunksJoin(b, n);
    if |ca| < |cb| {
      LongerLog(ids, apps, id, a, b, n);
    } else if |cb| < |ca| {
      LongerLog(ids, apps, id, b, a, n);
    } else if ids[0] == id {
      var la, lb := Log(ids, apps[id := a], n), Log(ids, apps[id := b], n);
      assert la[..|ca|] == ca && lb[..|cb|] == cb;
    } else {
      LogTells(ids[1..], apps, id, a, b, n);
      var c := Chunks(apps[ids[0]], n);
      var la, lb := Log(ids, apps[id := a], n), Log(ids, apps[id := b], n);
      assert la[|c|..] == Log(ids[1..], apps[id := a], n) && lb[|c|..] == Log(ids[1..], apps[id := b], n);
    }
  }

  lemma {:induction false} LongerLog(ids: seq<Id>, apps: map<Id, Bytes>, id: Id, a: Bytes, b: Bytes, n: nat)
    requires n > 0 && |Chunks(a, n)| < |Chunks(b, n)| && forall x :: x in ids ==> x == id || x in apps
    ensures |Log(ids, apps[id := a], n)| <= |Log(ids, apps[id := b], n)|
    ensures id in ids ==> |Log(ids, apps[id := a], n)| < |Log(ids, apps[id := b], n)|
    decreases |ids|
  {
    if ids != [] { LongerLog(ids[1..], apps, id, a, b, n); }
  }

  lemma OthersThen(count: nat, i: nat, j: nat)
    requires i < count && j < count && i != j
    ensures IsOrder(Others(count, i, j) + [i, j], count)
  {
    var rest := Others(count, i, j);
    var order := rest + [i, j];
    forall k | 0 <= k < count ensures k in order {
      if k == i { assert order[|rest|] == k; }
      else if k == j { assert order[|rest| + 1] == k; }
      else { assert k in rest; }
    }
  }

  /** Two tasks for one id with different results: which of them finishes last shows in the log. */
  lemma OrderShows(ids: seq<Id>, data: seq<Bytes>, i: nat, j: nat, n: nat) returns (one: seq<nat>, two: seq<nat>)
    requires n > 0 && |ids| == |data| && i < j < |ids| && ids[i] == ids[j] && data[i] != data[j]
    ensures IsOrder(one, |ids|) && IsOrder(two, |ids|)
    ensures LogAfter(ids, data, one, n) != LogAfter(ids, data, two, n)
  {
    var rest := Others(|ids|, i, j);
    one, two := rest + [i, j], Others(|ids|, j, i) + [j, i];
    OthersSymmetric(|ids|, i, j);
    OthersThen(|ids|, i, j);
    OthersThen(|ids|, j, i);
    FinishLast(ids, data, rest, i, j);
    FinishLast(ids, data, rest, j, i);
    AppsCover(ids, data, one);
    LogTells(ids, AppsAfter(map[], ids, data, rest), ids[i], data[j], data[i], n);
  }

  lemma {:induction false} OthersSymmetric(count: nat, i: nat, j: nat)
    ensures Others(count, i, j) == Others(count, j, i)
  {
    if count > 0 { OthersSymmetric(count - 1, i, j); }
  }

  lemma FinishLast(ids: seq<Id>, data: seq<Bytes>, rest: seq<nat>, i: nat, j: nat)
    requires |ids| == |data| && i < |ids| && j < |ids| && ids[i] == ids[j] && Below(rest, |ids|)
    ensures AppsAfter(map[], ids, data, rest + [i, j]) == AppsAfter(map[], ids, data, rest)[ids[i] := data[j]]
  {
    var apps := AppsAfter(map[], ids, data, rest);
    AppsAfterConcat(map[], ids, data, rest, [i, j]);
    assert [i, j][1..] == [j] && [j][1..] == [];
    var first: map<Id, Bytes> := apps[ids[i] := data[i]];
    assert AppsAfter(apps, ids, data, [i, j]) == AppsAfter(first, ids, data, [j]);
    assert AppsAfter(first, ids, data, [j]) == first[ids[j] := data[j]];
  }

  /**
    The REM log is a function of the request order alone, the same for every completion order,
    exactly when tasks for the same id install the same thing. Distinct ids guarantee it.
   */
  lemma LogIndependentIff(ids: seq<Id>, data: seq<Bytes>, n: nat)
    requires n > 0 && |ids| == |data|
    ensures (forall order | IsOrder(order, |ids|) :: LogAfter(ids, data, order, n) == LogOf(data, n)) <==> Agreeing(ids, data)
  {
    if Agreeing(ids, data) {
      forall order | IsOrder(order, |ids|) ensures LogAfter(ids, data, order, n) == LogOf(data, n) {
        AgreeingApps(ids, data, order);
        LogFromData(ids, AppsAfter(map[], ids, data, order), data, n);
      }
    } else {
      var i, j :| 0 <= i < j < |ids| && ids[i] == ids[j] && data[i] != data[j];
      var one, two := OrderShows(ids, data, i, j, n);
    }
  }

  // ----- what a request leaves behind -----

  lemma {:induction false} ExtendedPrefix(rem: seq<Bytes>, chunks: seq<Bytes>, rsi: nat -> bool) returns (k: nat)
    ensures k <= |chunks| && Extended(rem, chunks, rsi).1 == rem + chunks[..k]
    ensures Extended(rem, chunks, rsi).0 <==> k == |chunks|
    decreases |chunks|
  {
    k := 0;
    if chunks != [] && rsi(|rem|) {
      var more := ExtendedPrefix(rem + [chunks[0]], chunks[1..], rsi);
      k := more + 1;
      assert rem + [chunks[0]] + chunks[1..][..more] == rem + chunks[..k];
    }
  }

  lemma {:induction false} MeasuredPrefix(rem: seq<Bytes>, ids: seq<Id>, apps: map<Id, Bytes>, n: nat, rsi: nat -> bool) returns (k: nat)
    requires n > 0 && forall id :: id in ids ==> id in apps
    ensures k <= |Log(ids, apps, n)| && MeasuredAll(rem, ids, apps, true, n, rsi).1 == rem + Log(ids, apps, n)[..k]
    ensures MeasuredAll(rem, ids, apps, true, n, rsi).0.None? ==> k == |Log(ids, apps, n)| && forall id :: id in ids ==> apps[id] != []
    ensures MeasuredAll(rem, ids, apps, true, n, rsi).0 != Some(AppNotFound)
    decreases |ids|
  {
    k := 0;
    if ids != [] {
      assert ids[0] in ids;
      var cs, rest := Chunks(apps[ids[0]], n), Log(ids[1..], apps, n);
      if apps[ids[0]] != [] {
        k := ExtendedPrefix(rem, cs, rsi);
        if k == |cs| {
          var more := MeasuredPrefix(rem + cs, ids[1..], apps, n, rsi);
          assert cs[..k] == cs;
          k := |cs| + more;
          assert rem + cs + rest[..more] == rem + (cs + rest)[..k];
        } else {
          assert (cs + rest)[..k] == cs[..k];
        }
      }
    }
  }

  lemma {:induction false} UnmeasuredAll(rem: seq<Bytes>, ids: seq<Id>, apps: map<Id, Bytes>, n: nat, rsi: nat -> bool)
    requires n > 0 && forall id :: id in ids ==> id in apps
    ensures MeasuredAll(rem, ids, apps, false, n, rsi) == (None, rem)
    decreases |ids|
  {
    if ids != [] {
      assert ids[0] in ids;
      UnmeasuredAll(rem, ids[1..], apps, n, rsi);
    }
  }

  /**
    A request whose tasks all succeed, in any completion order: the applications are complete, no
    application is missed, the REM grows by a prefix of the log the request calls for, and by all
    of it on success.
   */
  lemma ProvisionAccount(
    rem: seq<Bytes>, ids: seq<Id>, data: seq<Bytes>, order: seq<nat>, extend: bool, n: nat, rsi: nat -> bool, starts: bool)
    requires n > 0 && |ids| == |data| && IsOrder(order, |ids|) && Agreeing(ids, data)
    ensures var (failure, apps, log) := Provisioned(map[], rem, ids, Installs(data), order, extend, n, rsi, true, starts);
      && (forall i :: 0 <= i < |ids| ==> ids[i] in apps && apps[ids[i]] == data[i])
      && failure != Some(AppNotFound)
      && (!extend ==> log == rem)
      && (extend ==> exists k | 0 <= k <= |LogOf(data, n)| :: log == rem + LogOf(data, n)[..k])
      && (extend && failure.None? ==> log == rem + LogOf(data, n))
  {
    CollectedInstalls(map[], ids, data, order);
    AgreeingApps(ids, data, order);
    var apps := AppsAfter(map[], ids, data, order);
    LogFromData(ids, apps, data, n);
    if extend {
      var k := MeasuredPrefix(rem, ids, apps, n, rsi);
      assert Log(ids, apps, n)[..k] == LogOf(data, n)[..k];
      if k == |LogOf(data, n)| { assert LogOf(data, n)[..k] == LogOf(data, n); }
    } else {
      UnmeasuredAll(rem, ids, apps, n, rsi);
    }
  }

  lemma {:induction false} ExtendedIff(rem: seq<Bytes>, chunks: seq<Bytes>, rsi: nat -> bool)
    ensures Extended(rem, chunks, rsi).0 <==> forall j :: |rem| <= j < |rem| + |chunks| ==> rsi(j)
    decreases |chunks|
  {
    if chunks != [] { ExtendedIff(rem + [chunks[0]], chunks[1..], rsi); }
  }

  lemma {:induction false} MeasuredAllIff(rem: seq<Bytes>, ids: seq<Id>, apps: map<Id, Bytes>, n: nat, rsi: nat -> bool)
    requires n > 0 && forall id :: id in ids ==> id in apps
    ensures MeasuredAll(rem, ids, apps, true, n, rsi).0.None? <==>
      && (forall id :: id in ids ==> apps[id] != [])
      && (forall j :: |rem| <= j < |rem| + |Log(ids, apps, n)| ==> rsi(j))
    decreases |ids|
  {
    if ids != [] {
      assert ids[0] in ids;
      var cs := Chunks(apps[ids[0]], n);
      ExtendedIff(rem, cs, rsi);
      var k := ExtendedPrefix(rem, cs, rsi);
      var after := Extended(rem, cs, rsi).1;
      if apps[ids[0]] != [] && k == |cs| {
        assert after == rem + cs;
        MeasuredAllIff(after, ids[1..], apps, n, rsi);
        assert forall id :: id in ids <==> id == ids[0] || id in ids[1..];
      }
    }
  }

  /**
    A request whose tasks all succeed is answered with success exactly if every application starts
    that is to start and, with a configured REM, every application has measurements and the hardware
    takes every extension. A failing start is reported only if all the rest went well.
   */
  lemma ProvisionSucceedsIff(
    rem: seq<Bytes>, ids: seq<Id>, data: seq<Bytes>, order: seq<nat>, extend: bool, n: nat, rsi: nat -> bool, starts: bool)
    requires n > 0 && |ids| == |data| && IsOrder(order, |ids|) && Agreeing(ids, data)
    ensures var failure := Provisioned(map[], rem, ids, Installs(data), order, extend, n, rsi, true, starts).0;
      var measured := extend ==>
        (forall i :: 0 <= i < |data| ==> data[i] != []) && (forall j :: |rem| <= j < |rem| + |LogOf(data, n)| ==> rsi(j));
      && (failure.None? <==> measured && starts)
      && (failure == Some(StartFailed) <==> measured && !starts)
  {
    CollectedInstalls(map[], ids, data, order);
    AgreeingApps(ids, data, order);
    var apps := AppsAfter(map[], ids, data, order);
    LogFromData(ids, apps, data, n);
    if extend {
      MeasuredAllIff(rem, ids, apps, n, rsi);
      assert (forall id :: id in ids ==> apps[id] != []) <==> forall i :: 0 <= i < |data| ==> data[i] != [] by {
        assert forall i :: 0 <= i < |ids| ==> ids[i] in ids && apps[ids[i]] == data[i];
      }
      MeasuringNeverStarts(rem, ids, apps, extend, n, rsi);
    } else {
      UnmeasuredAll(rem, ids, apps, n, rsi);
    }
  }

  /** A request is refused, with nothing changed, if there are applications already or a launcher cannot be made. */
  lemma RefusedUnchanged(
    apps: map<Id, Bytes>, rem: seq<Bytes>, ids: seq<Id>, outcomes: seq<Option<Bytes>>, order: seq<nat>,
    extend: bool, n: nat, rsi: nat -> bool, launchers: bool, starts: bool)
    requires n > 0 && |ids| == |outcomes| && Below(order, |ids|) && (apps != map[] || (ids != [] && !launchers))
    ensures Provisioned(apps, rem, ids, outcomes, order, extend, n, rsi, launchers, starts)
         == (Some(if apps != map[] then AlreadyProvisioned else LauncherFailed), apps, rem)
  {
  }

  lemma {:induction false} MeasuringNeverStarts(rem: seq<Bytes>, ids: seq<Id>, apps: map<Id, Bytes>, extend: bool, n: nat, rsi: nat -> bool)
    requires n > 0
    ensures MeasuredAll(rem, ids, apps, extend, n, rsi).0 != Some(StartFailed)
    decreases |ids|
  {
    if ids != [] && ids[0] in apps {
      MeasuringNeverStarts(Measured(rem, apps[ids[0]], extend, n, rsi).1, ids[1..], apps, extend, n, rsi);
    }
  }

  /**
    A request that failed while installing leaves the REM alone. It can be repeated exactly if the
    first job to finish was a failing one; otherwise every later request is refused.
   */
  lemma RepeatableIff(
    rem: seq<Bytes>, ids: seq<Id>, outcomes: seq<Option<Bytes>>, order: seq<nat>, next: seq<Id>, nextOutcomes: seq<Option<Bytes>>,
    nextOrder: seq<nat>, extend: bool, n: nat, rsi: nat -> bool, starts: bool)
    requires n > 0 && |ids| == |outcomes| && IsOrder(order, |ids|)
    requires |next| == |nextOutcomes| && IsOrder(nextOrder, |next|)
    requires exists k :: 0 <= k < |outcomes| && outcomes[k].None?
    ensures order != []
    ensures var (failure, apps, log) := Provisioned(map[], rem, ids, outcomes, order, extend, n, rsi, true, starts);
      && failure == Some(InstallFailed) && log == rem
      && (Provisioned(apps, log, next, nextOutcomes, nextOrder, extend, n, rsi, true, starts).0 == Some(AlreadyProvisioned)
          <==> outcomes[order[0]].Some?)
  {
    var k :| 0 <= k < |outcomes| && outcomes[k].None?;
    assert k in order;
    CollectedAll(map[], ids, outcomes, order);
    var left := Collected(map[], ids, outcomes, order).1;
    if outcomes[order[0]].Some? {
      CollectedGrows(map[ids[order[0]] := outcomes[order[0]].value], ids, outcomes, order[1..], ids[order[0]]);
      assert left != map[];
    } else {
      NeverAlready(rem, next, nextOutcomes, nextOrder, extend, n, rsi, starts);
    }
  }

  lemma NeverAlready(
    rem: seq<Bytes>, ids: seq<Id>, outcomes: seq<Option<Bytes>>, order: seq<nat>, extend: bool, n: nat, rsi: nat -> bool, starts: bool)
    requires n > 0 && |ids| == |outcomes| && Below(order, |ids|)
    ensures Provisioned(map[], rem, ids, outcomes, order, extend, n, rsi, true, starts).0 != Some(AlreadyProvisioned)
  {
    MeasuringErrors(rem, ids, Collected(map[], ids, outcomes, order).1, extend, n, rsi);
  }

  lemma {:induction false} MeasuringErrors(rem: seq<Bytes>, ids: seq<Id>, apps: map<Id, Bytes>, extend: bool, n: nat, rsi: nat -> bool)
    requires n > 0
    ensures MeasuredAll(rem, ids, apps, extend, n, rsi).0 != Some(AlreadyProvisioned)
    decreases |ids|
  {
    if ids != [] && ids[0] in apps {
      MeasuringErrors(Measured(rem, apps[ids[0]], extend, n, rsi).1, ids[1..], apps, extend, n, rsi);
    }
  }

  /** It happens: the first application installs, the second fails, and the repeated request is refused although it would succeed. */
  lemma RefusedRepetitionHappens(m: Bytes, n: nat, rsi: nat -> bool)
    requires n > 0 && m != []
    ensures var (failure, apps, log) := Provisioned(map[], [], [1, 2], [Some(m), None], [0, 1], false, n, rsi, true, true);
      && failure == Some(InstallFailed)
      && Provisioned(apps, log, [1, 2], [Some(m), Some(m)], [0, 1], false, n, rsi, true, true).0 == Some(AlreadyProvisioned)
      && Provisioned(map[], log, [1, 2], [Some(m), Some(m)], [0, 1], false, n, rsi, true, true).0 == None
  {
    var order: seq<nat> := [0, 1];
    var bad: seq<Option<Bytes>> := [Some(m), None];
    assert order[0] == 0 && order[1] == 1 && bad[1].None?;
    RepeatableIff([], [1, 2], bad, order, [1, 2], [Some(m), Some(m)], order, false, n, rsi, true);
    var data: seq<Bytes> := [m, m];
    assert Installs(data) == [Some(m), Some(m)];
    CollectedInstalls(map[], [1, 2], data, order);
    AppsCover([1, 2], data, order);
    UnmeasuredAll([], [1, 2], AppsAfter(map[], [1, 2], data, order), n, rsi);
  }

  lemma {:induction false} CollectedGrows(apps: map<Id, Bytes>, ids: seq<Id>, outcomes: seq<Option<Bytes>>, order: seq<nat>, id: Id)
    requires |ids| == |outcomes| && Below(order, |ids|) && id in apps
    ensures id in Collected(apps, ids, outcomes, order).1
    decreases |order|
  {
    if order != [] && outcomes[order[0]].Some? {
      CollectedGrows(apps[ids[order[0]] := outcomes[order[0]].value], ids, outcomes, order[1..], id);
    }
  }
}
