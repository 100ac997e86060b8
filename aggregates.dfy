/** What one run of `main` guarantees about the aggregate states, in terms of
    the presence source alone. */
module Aggregates {
  import opened Numbers
  import opened Strings
  import opened Names
  import opened StateStore
  import opened Engine

  /** The configured devices the presence source reports present, in
      configuration order. */
  function PresentDevices(src: Source, ds: seq<Device>): (r: seq<Device>)
    ensures |r| <= |ds|
    decreases |ds|
  {
    if ds == [] then []
    else
      var d := ds[|ds| - 1];
      PresentDevices(src, ds[..|ds| - 1]) + (if PresentIn(src, d.id) then [d] else [])
  }

  /** A device is listed exactly when it is configured and present. */
  lemma {:induction false} PresentDevicesMembers(src: Source, ds: seq<Device>, d: Device)
    ensures d in PresentDevices(src, ds) <==> d in ds && PresentIn(src, d.id)
    decreases |ds|
  {
    if ds != [] {
      PresentDevicesMembers(src, ds[..|ds| - 1], d);
      assert ds == ds[..|ds| - 1] + [ds[|ds| - 1]];
    }
  }

  /** The cleaned display names of some devices, in order. */
  function CleanNames(ds: seq<Device>): (r: seq<string>)
    ensures |r| == |ds|
    decreases |ds|
  {
    if ds == [] then [] else CleanNames(ds[..|ds| - 1]) + [Cl(ds[|ds| - 1].name)]
  }

  /** The `i`-th name is the cleaned name of the `i`-th device. */
  lemma {:induction false} CleanNamesAt(ds: seq<Device>, i: nat)
    requires i < |ds|
    ensures CleanNames(ds)[i] == Cl(ds[i].name)
    decreases |ds|
  {
    if i < |ds| - 1 {
      CleanNamesAt(ds[..|ds| - 1], i);
    }
  }

  /** The names with the leading empty ones removed: while the accumulated
      text is still empty, an empty name leaves it empty. */
  function DropLeadingEmpty(names: seq<string>): (r: seq<string>)
    ensures r != [] ==> r[0] != ""
    ensures |r| <= |names|
  {
    if names == [] then []
    else if names[0] == "" then DropLeadingEmpty(names[1..])
    else names
  }

  /** What is kept is a suffix of the names. */
  lemma {:induction false} DropLeadingEmptySuffix(names: seq<string>)
    ensures var r := DropLeadingEmpty(names); r == names[|names| - |r|..]
  {
    if names != [] && names[0] == "" {
      DropLeadingEmptySuffix(names[1..]);
      assert names[1..][|names| - 1 - |DropLeadingEmpty(names)|..] == names[|names| - |DropLeadingEmpty(names)|..];
    }
  }

  lemma {:induction false} DropLeadingEmptySnoc(names: seq<string>, n: string)
    ensures DropLeadingEmpty(names + [n])
         == if DropLeadingEmpty(names) == [] then (if n == "" then [] else [n])
            else DropLeadingEmpty(names) + [n]
  {
    if names == [] {
      assert names + [n] == [n];
      assert [n][1..] == [];
    } else {
      assert (names + [n])[0] == names[0];
      assert (names + [n])[1..] == names[1..] + [n];
      DropLeadingEmptySnoc(names[1..], n);
    }
  }

  lemma JoinNonEmpty(xs: seq<string>, sep: string)
    requires xs != [] && xs[0] != ""
    ensures Join(xs, sep) != ""
  {
  }

  /** The pieces `split('######')` gives back: the names after the leading
      empty ones, or one empty piece when there are none. */
  function Pieces(names: seq<string>): (r: seq<string>)
    ensures r != []
  {
    if DropLeadingEmpty(names) == [] then [""] else DropLeadingEmpty(names)
  }

  /** Appending a name the way the loop does keeps the accumulated text equal
      to the join of the names after the leading empty ones. */
  lemma Accumulate(names: seq<string>, n: string)
    ensures var acc := Join(DropLeadingEmpty(names), PresentSep);
      (if acc == "" then n else acc + PresentSep + n) == Join(DropLeadingEmpty(names + [n]), PresentSep)
  {
    var drop := DropLeadingEmpty(names);
    DropLeadingEmptySnoc(names, n);
    if drop != [] {
      JoinNonEmpty(drop, PresentSep);
      JoinSnoc(drop, n, PresentSep);
    }
  }

  /** The present devices and their names after one more device. */
  lemma PresentSnoc(src: Source, ds: seq<Device>)
    requires ds != []
    ensures var d := ds[|ds| - 1];
      var before := PresentDevices(src, ds[..|ds| - 1]);
      && PresentDevices(src, ds) == before + (if PresentIn(src, d.id) then [d] else [])
      && CleanNames(PresentDevices(src, ds)) == CleanNames(before) + (if PresentIn(src, d.id) then [Cl(d.name)] else [])
  {
    var d := ds[|ds| - 1];
    var before := PresentDevices(src, ds[..|ds| - 1]);
    if PresentIn(src, d.id) {
      assert (before + [d])[..|before|] == before;
    } else {
      assert before + [] == before;
    }
  }

  /** The present devices among the first `n` grow by the `n`-th when it is
      present. */
  lemma PresentPrefix(src: Source, ds: seq<Device>, n: nat)
    requires 0 < n <= |ds|
    ensures var d := ds[n - 1];
      var before := PresentDevices(src, ds[..n - 1]);
      && PresentDevices(src, ds[..n]) == before + (if PresentIn(src, d.id) then [d] else [])
      && CleanNames(PresentDevices(src, ds[..n])) == CleanNames(before) + (if PresentIn(src, d.id) then [Cl(d.name)] else [])
  {
    assert ds[..n][..n - 1] == ds[..n - 1];
    PresentSnoc(src, ds[..n]);
  }

  /** The loop's `isAnyonePresent` after the first `n` devices says whether
      one of them is present. */
  lemma {:induction false} LoopAnyone(src: Source, ds: seq<Device>, n: nat)
    requires n <= |ds|
    ensures AnyoneAfter(src, ds, n) == (PresentDevices(src, ds[..n]) != [])
  {
    if n > 0 {
      LoopAnyone(src, ds, n - 1);
      PresentPrefix(src, ds, n);
    }
  }

  /** The loop's `counter` after the first `n` devices counts the present
      ones. */
  lemma {:induction false} LoopCounter(src: Source, ds: seq<Device>, n: nat)
    requires n <= |ds|
    ensures CounterAfter(src, ds, n) == |PresentDevices(src, ds[..n])|
  {
    if n > 0 {
      LoopCounter(src, ds, n - 1);
      PresentPrefix(src, ds, n);
    }
  }

  /** The loop's `presentPersons` after the first `n` devices lists the
      cleaned names of the present ones joined by '######', leading empty
      names dropped. */
  lemma {:induction false} LoopPresent(src: Source, ds: seq<Device>, n: nat)
    requires n <= |ds|
    ensures PresentAfter(src, ds, n) == Join(DropLeadingEmpty(CleanNames(PresentDevices(src, ds[..n]))), PresentSep)
  {
    if n > 0 {
      var d := ds[n - 1];
      var names := CleanNames(PresentDevices(src, ds[..n - 1]));
      var acc := PresentAfter(src, ds, n - 1);
      LoopPresent(src, ds, n - 1);
      PresentPrefix(src, ds, n);
      assert PresentAfter(src, ds, n) == PresentStep(src, acc, d);
      PresentStepJoin(src, acc, names, d);
    }
  }

  lemma PresentStepJoin(src: Source, acc: string, names: seq<string>, d: Device)
    requires acc == Join(DropLeadingEmpty(names), PresentSep)
    ensures PresentStep(src, acc, d)
         == Join(DropLeadingEmpty(names + (if PresentIn(src, d.id) then [Cl(d.name)] else [])), PresentSep)
  {
    if PresentIn(src, d.id) {
      Accumulate(names, Cl(d.name));
    } else {
      assert names + [] == names;
    }
  }

  /** The three running aggregates after the whole loop. */
  lemma LoopAggregates(src: Source, ds: seq<Device>)
    ensures var present := PresentDevices(src, ds);
      && AnyoneAfter(src, ds, |ds|) == (present != [])
      && CounterAfter(src, ds, |ds|) == |present|
      && PresentAfter(src, ds, |ds|) == Join(DropLeadingEmpty(CleanNames(present)), PresentSep)
  {
    assert ds[..|ds|] == ds;
    LoopAnyone(src, ds, |ds|);
    LoopCounter(src, ds, |ds|);
    LoopPresent(src, ds, |ds|);
  }

  predicate HashFree(names: seq<string>)
  {
    forall i :: 0 <= i < |names| ==> '#' !in names[i]
  }

  /** Splitting the accumulated text at '######' gives the pieces back:
      cleaned names hold no '#'. */
  lemma SplitAccumulated(names: seq<string>)
    requires HashFree(names)
    ensures Split(Join(DropLeadingEmpty(names), PresentSep), PresentSep) == Pieces(names)
  {
    var drop := DropLeadingEmpty(names);
    DropLeadingEmptySuffix(names);
    if drop == [] {
      assert Join(drop, PresentSep) == "";
    } else {
      forall k | 0 <= k < |drop| ensures FreeOf(drop[k], PresentSep) {
        assert drop[k] == names[|names| - |drop|..][k] == names[|names| - |drop| + k];
      }
      SplitJoin(drop, PresentSep);
    }
  }

  lemma CleanNamesHashFree(ds: seq<Device>)
    ensures HashFree(CleanNames(ds))
  {
    forall i | 0 <= i < |ds| ensures '#' !in CleanNames(ds)[i] {
      CleanNamesAt(ds, i);
      ClNoHash(ds[i].name);
    }
  }

  /** The text written to `presentPersonsString`. */
  function PresentPersonsText(cfg: Config, src: Source): string
  {
    var present := PresentDevices(src, cfg.devices);
    if present == [] then cfg.noneText
    else Join(SortStrings(Pieces(CleanNames(present))), cfg.delimiter)
  }

  lemma PresentTextOfPass(cfg: Config, src: Source, trigger: Trigger, clock: Clock, store: Store)
    ensures PresentText(cfg, Pass(cfg, src, trigger, clock, store, |cfg.devices|)) == PresentPersonsText(cfg, src)
  {
    LoopAggregates(src, cfg.devices);
    var present := PresentDevices(src, cfg.devices);
    CleanNamesHashFree(present);
    SplitAccumulated(CleanNames(present));
  }

  /** The aggregate writes after the loop store the loop's results. */
  lemma FinishAggregates(cfg: Config, clock: Clock, t: Tally)
    ensures var st := Finish(cfg, clock, t).store;
      && ValOf(st, AnyonePresent) == VBool(t.anyone)
      && ValOf(st, AllPresentPersonsCount) == VNum(t.counter)
      && ValOf(st, PresentPersonsString) == VStr(PresentText(cfg, t))
      && ValOf(st, PresentPersonsJson) == VStr(t.json + JsonClose)
      && ValOf(st, PresentPersonsHtml) == VStr(t.html + HtmlFoot)
  {
  }

  /** After `main`, whatever the trigger and the previous store:
      `anyonePresent` says whether some configured device is present,
      `allPresentPersonsCount` is the number of present devices, and
      `presentPersonsString` is the placeholder when nobody is present and
      otherwise the sorted pieces joined with the delimiter. */
  lemma AggregatesAfterMain(cfg: Config, src: Source, store: Store, trigger: Trigger, clock: Clock)
    ensures var out := Recompute(cfg, src, store, trigger, clock);
      var present := PresentDevices(src, cfg.devices);
      && ValOf(out.store, AnyonePresent) == VBool(present != [])
      && ValOf(out.store, AllPresentPersonsCount) == VNum(|present|)
      && ValOf(out.store, PresentPersonsString) == VStr(PresentPersonsText(cfg, src))
  {
    var t := Pass(cfg, src, trigger, clock, store, |cfg.devices|);
    LoopAggregates(src, cfg.devices);
    PresentTextOfPass(cfg, src, trigger, clock, store);
    FinishAggregates(cfg, clock, t);
  }

  /** When no present device's name cleans to the empty string, the pieces
      are exactly the present names, so the text lists each present person
      once, in sorted order. */
  lemma PresentNamesSorted(cfg: Config, src: Source)
    requires PresentDevices(src, cfg.devices) != []
    requires forall i :: 0 <= i < |PresentDevices(src, cfg.devices)| ==> Cl(PresentDevices(src, cfg.devices)[i].name) != ""
    ensures var names := SortStrings(CleanNames(PresentDevices(src, cfg.devices)));
      && PresentPersonsText(cfg, src) == Join(names, cfg.delimiter)
      && Sorted(names)
      && multiset(names) == multiset(CleanNames(PresentDevices(src, cfg.devices)))
  {
    var names := CleanNames(PresentDevices(src, cfg.devices));
    CleanNamesAt(PresentDevices(src, cfg.devices), 0);
    assert DropLeadingEmpty(names) == names;
  }

  lemma KeptOnly(ds: seq<Device>, x: string)
    requires x in multiset(CleanNames(ds))
    ensures forall i :: 0 <= i < |x| ==> Kept(x[i])
  {
    var names := CleanNames(ds);
    assert x in names;
    var j :| 0 <= j < |names| && names[j] == x;
    CleanNamesAt(ds, j);
  }

  /** Every piece is empty or one of the names. */
  lemma PieceIsName(names: seq<string>, x: string)
    requires x in multiset(Pieces(names)) && x != ""
    ensures x in multiset(names)
  {
    var ps := Pieces(names);
    DropLeadingEmptySuffix(names);
    var j :| 0 <= j < |ps| && ps[j] == x;
    assert ps[j] == names[|names| - |ps| + j];
  }

  /** The sorted pieces hold no character of a delimiter that starts outside
      the kept class. */
  lemma SortedPiecesFree(ds: seq<Device>, sep: string)
    requires sep != "" && !Kept(sep[0])
    ensures forall k :: 0 <= k < |SortStrings(Pieces(CleanNames(ds)))| ==> FreeOf(SortStrings(Pieces(CleanNames(ds)))[k], sep)
  {
    var sorted := SortStrings(Pieces(CleanNames(ds)));
    forall k | 0 <= k < |sorted| ensures FreeOf(sorted[k], sep) {
      assert sorted[k] in multiset(sorted);
      if sorted[k] != "" {
        PieceIsName(CleanNames(ds), sorted[k]);
        KeptOnly(ds, sorted[k]);
      }
    }
  }

  /** With no empty names there is nothing to drop. */
  lemma PiecesOfNonEmpty(ds: seq<Device>)
    requires ds != [] && forall i :: 0 <= i < |ds| ==> Cl(ds[i].name) != ""
    ensures Pieces(CleanNames(ds)) == CleanNames(ds)
  {
    CleanNamesAt(ds, 0);
  }

  /** With a delimiter that starts with a character cleaned names never hold
      (the shipped ", " does): nobody present gives the placeholder;
      otherwise the text splits back into the sorted pieces, which are the
      sorted names when no present name cleans to the empty string. */
  lemma PresentNamesReadBack(cfg: Config, src: Source)
    requires cfg.delimiter != "" && !Kept(cfg.delimiter[0])
    ensures var present := PresentDevices(src, cfg.devices);
      && (present == [] ==> PresentPersonsText(cfg, src) == cfg.noneText)
      && (present != [] ==> Split(PresentPersonsText(cfg, src), cfg.delimiter) == SortStrings(Pieces(CleanNames(present))))
    ensures var present := PresentDevices(src, cfg.devices);
      present != [] && (forall i :: 0 <= i < |present| ==> Cl(present[i].name) != "") ==>
        Split(PresentPersonsText(cfg, src), cfg.delimiter) == SortStrings(CleanNames(present))
  {
    var ds := PresentDevices(src, cfg.devices);
    if ds != [] {
      var sorted := SortStrings(Pieces(CleanNames(ds)));
      SortedPiecesFree(ds, cfg.delimiter);
      assert sorted != [] by {
        assert |multiset(sorted)| == |multiset(Pieces(CleanNames(ds)))|;
      }
      SplitJoin(sorted, cfg.delimiter);
      if forall i :: 0 <= i < |ds| ==> Cl(ds[i].name) != "" {
        PiecesOfNonEmpty(ds);
      }
    }
  }

  /** The loop's `isAnyonePresent` is true exactly when `counter` is positive. */
  lemma AnyoneIffCounted(src: Source, ds: seq<Device>, n: nat)
    requires n <= |ds|
    ensures AnyoneAfter(src, ds, n) <==> CounterAfter(src, ds, n) > 0
  {
    LoopAnyone(src, ds, n);
    LoopCounter(src, ds, n);
  }
}
