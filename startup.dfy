/** What the script does when it starts (`init`): it checks that the adapter
    has a state object for every configured device, and only when the check
    passes creates its states, schedules the first `main(0)` and subscribes
    to each device's adapter state. The check keeps only the result for the
    last device. */
module Startup {
  import opened Names
  import opened StateStore
  import opened Engine
  import opened Notifications

  const MissingHead: string := "Das im Script angegebene Gerät ["
  const MissingOwner: string := "] von "
  const MissingTail: string := " existiert nicht in den TR-064-Community-Adapter-Objekten."
  const CheckHead: string := "Prüfe, ob Gerät ["
  const CheckTail: string := "] in den TR-064-Adapteroptionen so angelegt ist und Gerätename 1:1 übereinstimmt mit diesem Script."

  /** The two warnings logged for a device the adapter has no object for. */
  function MissingWarnings(d: Device): seq<string>
  {
    [MissingHead + d.id + MissingOwner + Cl(d.name) + MissingTail, CheckHead + d.id + CheckTail]
  }

  const GiveUpWarning: string := "Script wird nicht weiter ausgeführt aufgrund der ausgegebenen Fehler."

  /** The check for one device: no warning when the adapter has the object. */
  function WarnStep(known: set<string>, warnings: seq<string>, d: Device): seq<string>
  {
    if d.id in known then warnings else warnings + MissingWarnings(d)
  }

  /** The warnings of the check for the first `n` devices; `known` holds the
      ids for which `getObject` finds an adapter object. */
  function WarningsAfter(ds: seq<Device>, known: set<string>, n: nat): seq<string>
    requires n <= |ds|
  {
    if n == 0 then [] else WarnStep(known, WarningsAfter(ds, known, n - 1), ds[n - 1])
  }

  lemma WarningsAfterNext(ds: seq<Device>, known: set<string>, i: nat)
    requires i < |ds|
    ensures WarningsAfter(ds, known, i + 1) == WarnStep(known, WarningsAfter(ds, known, i), ds[i])
  {
  }

  /** The value `passed` ends with. */
  predicate Passes(ds: seq<Device>, known: set<string>)
  {
    ds != [] && ds[|ds| - 1].id in known
  }

  /** Every configured device has an adapter object: the check the loop is
      evidently meant to make. */
  predicate AllKnown(ds: seq<Device>, known: set<string>)
  {
    forall i :: 0 <= i < |ds| ==> ds[i].id in known
  }

  /** The validation loop of `init`: each device overwrites `passed` with its
      own result, so `passed` is the result for the last device, and `false`
      for an empty list. */
  method ValidationLoop(devices: seq<Device>, known: set<string>) returns (passed: bool, warnings: seq<string>)
    ensures passed <==> devices != [] && devices[|devices| - 1].id in known
    ensures warnings == WarningsAfter(devices, known, |devices|)
  {
    passed := false;
    warnings := [];
    for i := 0 to |devices|
      invariant passed <==> i > 0 && devices[i - 1].id in known
      invariant warnings == WarningsAfter(devices, known, i)
    {
      WarningsAfterNext(devices, known, i);
      if devices[i].id in known {
        passed := true;
      } else {
        passed := false;
        warnings := WarnStep(known, warnings, devices[i]);
      }
    }
  }

  /** What `init` sets going. */
  datatype Action =
    | CreateStates
      // `deleteState(presenceSimulationActive)`; the guard before it is always true
    | DeleteSimulationFlag
    | RunMainAfter(delayMs: nat, trigger: Trigger)
    | SubscribeAfter(delayMs: nat, ids: seq<string>)

  datatype Started = Started(warnings: seq<string>, actions: seq<Action>)

  /** The adapter states subscribed to, one per device in configuration order. */
  function Subscriptions(ds: seq<Device>): (ids: seq<string>)
    ensures |ids| == |ds|
  {
    if ds == [] then [] else Subscriptions(ds[..|ds| - 1]) + [StateId(ds[|ds| - 1].id)]
  }

  /** `init`. */
  method Init(cfg: Config, known: set<string>) returns (s: Started)
    ensures var last := Passes(cfg.devices, known);
      && (last ==> s.warnings == WarningsAfter(cfg.devices, known, |cfg.devices|))
      && (last ==> s.actions == [CreateStates] + (if cfg.simulation then [] else [DeleteSimulationFlag])
                                + [RunMainAfter(3000, Initial), SubscribeAfter(5000, Subscriptions(cfg.devices))])
      && (!last ==> s.warnings == WarningsAfter(cfg.devices, known, |cfg.devices|) + [GiveUpWarning])
      && (!last ==> s.actions == [])
  {
    var passed, warnings := ValidationLoop(cfg.devices, known);
    var actions := [];
    if passed {
      actions := actions + [CreateStates];
      if !cfg.simulation {
        actions := actions + [DeleteSimulationFlag];
      }
      actions := actions + [RunMainAfter(3000, Initial), SubscribeAfter(5000, Subscriptions(cfg.devices))];
    } else {
      warnings := warnings + [GiveUpWarning];
    }
    s := Started(warnings, actions);
  }

  /** The check warns exactly when some device has no adapter object. */
  lemma {:induction false} WarningsIffMissing(ds: seq<Device>, known: set<string>, n: nat)
    requires n <= |ds|
    ensures WarningsAfter(ds, known, n) == [] <==> forall i :: 0 <= i < n ==> ds[i].id in known
  {
    if n > 0 {
      var m := n - 1;
      WarningsIffMissing(ds, known, m);
      WarningsAfterNext(ds, known, m);
      if ds[m].id !in known {
        assert |MissingWarnings(ds[m])| == 2;
      }
    }
  }

  /** When every device has an adapter object, the script starts. */
  lemma AllKnownStarts(ds: seq<Device>, known: set<string>)
    requires ds != [] && AllKnown(ds, known)
    ensures Passes(ds, known)
  {
  }

  /** An empty `DEVICES` never starts. */
  lemma EmptyNeverStarts(known: set<string>)
    ensures !Passes([], known)
  {
  }

  /** The defect: a device without an adapter object is warned about, but
      when the last device has one the script starts anyway, and the missing
      device's turns of `main` read null from the adapter. */
  lemma EarlierMissingDeviceIgnored(ds: seq<Device>, known: set<string>, i: nat)
    requires i < |ds| - 1 && ds[i].id !in known && ds[|ds| - 1].id in known
    ensures Passes(ds, known) && !AllKnown(ds, known)
    ensures WarningsAfter(ds, known, |ds|) != []
  {
    WarningsIffMissing(ds, known, |ds|);
  }

  /** The shipped devices, with the adapter knowing only "Xiaomi": "iPhoneDon"
      is missing and the script starts regardless. */
  lemma ShippedWithMissingPhoneStarts()
    ensures Passes(Shipped.devices, {"Xiaomi"}) && !AllKnown(Shipped.devices, {"Xiaomi"})
  {
    EarlierMissingDeviceIgnored(Shipped.devices, {"Xiaomi"}, 0);
  }

  /** The check passes exactly when the last device is known; all devices
      known is sufficient but not necessary. */
  lemma GateIsLastDevice(ds: seq<Device>, known: set<string>)
    ensures ds != [] && AllKnown(ds, known) ==> Passes(ds, known)
    ensures Passes(ds, known) && !AllKnown(ds, known) ==> exists i :: 0 <= i < |ds| - 1 && ds[i].id !in known
  {
  }

  /** Subscription `i` is the adapter state of device `i`, and for an id
      without '.' the handler recovers the id from it. */
  lemma {:induction false} SubscriptionOf(ds: seq<Device>, i: nat)
    requires i < |ds|
    ensures Subscriptions(ds)[i] == StateId(ds[i].id)
    decreases |ds|
  {
    if i < |ds| - 1 {
      SubscriptionOf(ds[..|ds| - 1], i);
    }
  }
}
