/** The subscription handler installed for every configured device: what it
    does with one change notification of the TR-064 adapter's presence state,
    as a decision. Timers become values: a recheck is returned with its delay,
    and what the recheck does when it fires is a separate function. */
module Notifications {
  import opened Strings
  import opened Names
  import opened StateStore
  import opened Engine

  /** `STATEPATH_TR064_DEVICES`. */
  const DevicesPath: string := "tr-064-community.0.devices."

  /** The adapter state the handler for device `device` is subscribed to. */
  function StateId(device: string): string
  {
    DevicesPath + device
  }

  /** A notification delivered to the handler subscribed for `device`: the
      new value, the previous one, and whether it is acknowledged. */
  datatype Notification = Notification(device: string, val: Value, oldVal: Value, ack: bool)

  /** The part of a state id after its last '.', or the whole id when it has
      none. */
  function LastSegment(id: string): string
  {
    var parts := Split(id, ".");
    parts[|parts| - 1]
  }

  /** `DEVICES[id]`: the display name configured for `id`, if any. */
  function DisplayName(devices: seq<Device>, id: string): (r: Option<string>)
    ensures r.None? <==> forall i :: 0 <= i < |devices| ==> devices[i].id != id
    ensures r.Some? ==> exists i :: 0 <= i < |devices| && devices[i] == Device(id, r.value)
  {
    if devices == [] then None
    else if devices[0].id == id then Some(devices[0].name)
    else
      var r := DisplayName(devices[1..], id);
      assert forall i :: 0 < i < |devices| ==> devices[i] == devices[1..][i - 1];
      r
  }

  /** What the handler does with a notification. */
  datatype Reaction =
    | Ignored
      // `cl(undefined)` throws: the name is not a key of `DEVICES`
    | Fault
      // a timer of FIX_ERROR_DELAY seconds, after which adapter state `id` is read again
    | Recheck(device: string, deviceName: string, delayMs: nat)
      // `main(deviceName)` at once
    | RunNow(trigger: Trigger)

  /** The handler. The subscription uses `change: 'ne'`, so an unchanged value
      is never delivered; an unacknowledged one is ignored; the device name is
      the last '.'-separated segment of the state id; a value equal to the
      person's stored `isPresent` is ignored; a departure with `FIX_ERROR` on
      is rechecked later; anything else runs `main` for the device now. */
  function OnChange(cfg: Config, store: Store, n: Notification): Reaction
  {
    if n.val == n.oldVal || !n.ack then Ignored
    else
      var deviceName := LastSegment(StateId(n.device));
      match DisplayName(cfg.devices, deviceName)
      case None => Fault
      case Some(name) =>
        if n.val == ValOf(store, Person(Cl(name), IsPresent)) then Ignored
        else if cfg.fixError && !Truthy(n.val) then Recheck(n.device, deviceName, cfg.fixErrorDelay * 1000)
        else RunNow(Changed(deviceName))
  }

  /** The recheck when its timer fires: `main(deviceName)` only if the
      adapter state still reads as absent. */
  function AfterRecheck(src: Source, r: Reaction): (t: Option<Trigger>)
    requires r.Recheck?
    ensures t.Some? <==> !PresentIn(src, r.device)
    ensures t.Some? ==> t.value == Changed(r.deviceName)
  {
    if !Truthy(SourceValue(src, r.device)) then Some(Changed(r.deviceName)) else None
  }

  /** A notification that is not acknowledged, or that repeats the previous
      value, has no effect. */
  lemma IgnoredUnlessAckedChange(cfg: Config, store: Store, n: Notification)
    requires !n.ack || n.val == n.oldVal
    ensures OnChange(cfg, store, n) == Ignored
  {
  }

  lemma FreeOfDot(s: string)
    requires forall i :: 0 <= i < |s| ==> s[i] != '.'
    ensures FreeOf(s, ".")
  {
  }

  /** For a device id without '.', the last segment of its state id is the
      id itself. */
  lemma LastSegmentOfStateId(id: string)
    requires FreeOf(id, ".")
    ensures LastSegment(StateId(id)) == id
  {
    var tail := "devices" + "." + id;
    var mid := "0" + "." + tail;
    assert StateId(id) == "tr-064-community" + "." + mid;
    FreeOfDot("tr-064-community");
    FreeOfDot("0");
    FreeOfDot("devices");
    SplitPiece("tr-064-community", ".", mid);
    SplitPiece("0", ".", tail);
    SplitPiece("devices", ".", id);
    SplitAlone(id, ".");
  }

  /** With distinct ids, `DEVICES[ds[i].id]` is device `i`'s name. */
  lemma {:induction false} DisplayNameOf(ds: seq<Device>, i: nat)
    requires DistinctIds(ds) && i < |ds|
    ensures DisplayName(ds, ds[i].id) == Some(ds[i].name)
  {
    if i > 0 {
      assert ds[0].id != ds[i].id;
      assert DistinctIds(ds[1..]) by {
        forall a, b | 0 <= a < b < |ds[1..]| ensures ds[1..][a].id != ds[1..][b].id {
          assert ds[1..][a] == ds[a + 1] && ds[1..][b] == ds[b + 1];
        }
      }
      DisplayNameOf(ds[1..], i - 1);
      assert ds[1..][i - 1] == ds[i];
    }
  }

  /** An acknowledged change for configured device `i` whose id has no '.':
      it is ignored exactly when the value equals the person's stored
      `isPresent`; otherwise a departure with `FIX_ERROR` on is rechecked
      after `FIX_ERROR_DELAY` seconds, and every other change runs `main`
      for the device at once. It never faults. */
  lemma OnChangeForDevice(cfg: Config, store: Store, n: Notification, i: nat)
    requires DistinctIds(cfg.devices) && i < |cfg.devices|
    requires n.device == cfg.devices[i].id && FreeOf(n.device, ".")
    requires n.ack && n.val != n.oldVal
    ensures var r := OnChange(cfg, store, n);
      var stored := ValOf(store, Person(Cl(cfg.devices[i].name), IsPresent));
      && (r == Ignored <==> n.val == stored)
      && (r.Recheck? <==> n.val != stored && cfg.fixError && !Truthy(n.val))
      && (r.Recheck? ==> r == Recheck(n.device, n.device, cfg.fixErrorDelay * 1000))
      && (r.RunNow? <==> n.val != stored && !(cfg.fixError && !Truthy(n.val)))
      && (r.RunNow? ==> r.trigger == Changed(n.device))
      && r != Fault
  {
    LastSegmentOfStateId(n.device);
    DisplayNameOf(cfg.devices, i);
  }

  /** A short absence seen by the adapter: with `FIX_ERROR` on a departure
      only schedules a recheck, and if the device reads as present again when
      it fires, `main` does not run at all. */
  lemma FlickerSuppressed(cfg: Config, store: Store, n: Notification, later: Source)
    requires cfg.fixError && !Truthy(n.val)
    requires OnChange(cfg, store, n) != Ignored && OnChange(cfg, store, n) != Fault
    requires PresentIn(later, n.device)
    ensures OnChange(cfg, store, n).Recheck?
    ensures AfterRecheck(later, OnChange(cfg, store, n)) == None
  {
  }

  /** For an id with one '.', the last segment is the part after it. */
  lemma LastSegmentOfDottedId(a: string, b: string)
    requires FreeOf(a, ".") && FreeOf(b, ".")
    ensures LastSegment(StateId(a + "." + b)) == b
  {
    var tail := "devices" + "." + (a + "." + b);
    var mid := "0" + "." + tail;
    assert StateId(a + "." + b) == "tr-064-community" + "." + mid;
    FreeOfDot("tr-064-community");
    FreeOfDot("0");
    FreeOfDot("devices");
    SplitPiece("tr-064-community", ".", mid);
    SplitPiece("0", ".", tail);
    SplitPiece("devices", ".", a + "." + b);
    SplitPiece(a, ".", b);
    SplitAlone(b, ".");
  }

  /** A device id with a '.' in it: the handler looks up only the part after
      the last '.', which is not configured, and faults. */
  lemma DottedIdFaults(store: Store)
    ensures var cfg := Config([Device("my.phone", "Ann")], false, false, 600, true, true, 25, ", ", "", true);
      OnChange(cfg, store, Notification("my.phone", VBool(true), VBool(false), true)) == Fault
  {
    FreeOfDot("phone");
    FreeOfDot("my");
    LastSegmentOfDottedId("my", "phone");
    assert "my" + "." + "phone" == "my.phone";
  }
}
