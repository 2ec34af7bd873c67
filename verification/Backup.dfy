/** Backup and restore: an ordered catalogue of key prefixes, and selective copies between stores. */
module Backup {

  datatype Section = Section(id: string, prefixes: seq<string>, layout: bool)

  /** The sections of a backup, in display order. */
  const CATALOGUE: seq<Section> := [
    Section("radio", ["radio/", "hw/", "band_plan/", "operator/"], false),
    Section("audio", ["audio/", "vac1/", "vac2/"], false),
    Section("rxdsp", ["rx/", "rxeq/", "dsp/", "modefilter/"], false),
    Section("tx", ["tx/"], false),
    Section("cw", ["cw/", "CW/"], false),
    Section("calmeter", ["cal/", "meter/"], false),
    Section("spots", ["spots/"], false),
    Section("weather", ["wx/", "propagation/"], false),
    Section("network", ["tci/", "cat1/", "cat2/", "serialptt/", "serialcwkey/"], false),
    Section("memory", ["band_mem/", "memory/", "bands/", "tuner/", "swdb/", "gen/"], false),
    Section("profiles", ["profiles/"], false),
    Section("display", ["panadapter/", "ui/tooltips_enabled", "ui/ctunEnabled"], false),
    Section("layout", ["layouts/", "session/", "ui/geometry", "ui/windowState", "ui/userGeometry", "ui/userWindowState", "ui/panadapterSplit", "ui/userPanadapterSplit", "ui/panelsLocked"], true)
  ]

  const ADVANCED := "advanced"

  /** One of a section's prefixes starts the key. */
  predicate Claims(s: Section, key: string) {
    exists j :: 0 <= j < |s.prefixes| && s.prefixes[j] <= key
  }

  /** The first section that claims a key. */
  function SectionIn(cat: seq<Section>, key: string): string {
    if cat == [] then ADVANCED else if Claims(cat[0], key) then cat[0].id else SectionIn(cat[1..], key)
  }

  // ---- Prefixes that cannot both start a key ----

  /** Two strings part at a position both have, the first with the smaller character. */
  ghost predicate PartsAt(a: string, b: string, d: nat) {
    d < |a| && d < |b| && a[..d] == b[..d] && a[d] < b[d]
  }

  ghost predicate Parts(a: string, b: string) {
    exists d: nat :: PartsAt(a, b, d)
  }

  lemma PartsTransitive(a: string, b: string, c: string)
    requires Parts(a, b) && Parts(b, c)
    ensures Parts(a, c)
  {
    var d: nat :| PartsAt(a, b, d);
    var e: nat :| PartsAt(b, c, e);
    var f := if d < e then d else e;
    assert a[..f] == a[..d][..f] && b[..f] == b[..d][..f] && b[..f] == b[..e][..f] && c[..f] == c[..e][..f];
    if d > e {
      assert a[e] == a[..d][e] == b[..d][e] == b[e];
    } else if d < e {
      assert b[d] == b[..e][d] == c[..e][d] == c[d];
    }
    assert PartsAt(a, c, f);
  }

  lemma PartedExclude(a: string, b: string, key: string)
    requires Parts(a, b)
    ensures !(a <= key) || !(b <= key)
  {
    if a <= key {
      var d: nat :| PartsAt(a, b, d);
      assert key[d] == a[d];
      assert key[d] != b[d];
    }
  }

  datatype Entry = Entry(prefix: string, id: string)

  const SLOTS := 43

  /** The catalogue's prefixes in alphabetical order, each with its section. */
  function Slot(r: nat): Entry
    requires r < SLOTS
  {
    match r
    case 0 => Entry("CW/", "cw")
    case 1 => Entry("audio/", "audio")
    case 2 => Entry("band_mem/", "memory")
    case 3 => Entry("band_plan/", "radio")
    case 4 => Entry("bands/", "memory")
    case 5 => Entry("cal/", "calmeter")
    case 6 => Entry("cat1/", "network")
    case 7 => Entry("cat2/", "network")
    case 8 => Entry("cw/", "cw")
    case 9 => Entry("dsp/", "rxdsp")
    case 10 => Entry("gen/", "memory")
    case 11 => Entry("hw/", "radio")
    case 12 => Entry("layouts/", "layout")
    case 13 => Entry("memory/", "memory")
    case 14 => Entry("meter/", "calmeter")
    case 15 => Entry("modefilter/", "rxdsp")
    case 16 => Entry("operator/", "radio")
    case 17 => Entry("panadapter/", "display")
    case 18 => Entry("profiles/", "profiles")
    case 19 => Entry("propagation/", "weather")
    case 20 => Entry("radio/", "radio")
    case 21 => Entry("rx/", "rxdsp")
    case 22 => Entry("rxeq/", "rxdsp")
    case 23 => Entry("serialcwkey/", "network")
    case 24 => Entry("serialptt/", "network")
    case 25 => Entry("session/", "layout")
    case 26 => Entry("spots/", "spots")
    case 27 => Entry("swdb/", "memory")
    case 28 => Entry("tci/", "network")
    case 29 => Entry("tuner/", "memory")
    case 30 => Entry("tx/", "tx")
    case 31 => Entry("ui/ctunEnabled", "display")
    case 32 => Entry("ui/geometry", "layout")
    case 33 => Entry("ui/panadapterSplit", "layout")
    case 34 => Entry("ui/panelsLocked", "layout")
    case 35 => Entry("ui/tooltips_enabled", "display")
    case 36 => Entry("ui/userGeometry", "layout")
    case 37 => Entry("ui/userPanadapterSplit", "layout")
    case 38 => Entry("ui/userWindowState", "layout")
    case 39 => Entry("ui/windowState", "layout")
    case 40 => Entry("vac1/", "audio")
    case 41 => Entry("vac2/", "audio")
    case _ => Entry("wx/", "weather")
  }

  lemma NeighboursPart0(r: nat)
    requires 0 <= r < 5
    ensures Parts(Slot(r).prefix, Slot(r + 1).prefix)
  {
    var d :=
      match r
      case 0 => 0
      case 1 => 0
      case 2 => 5
      case 3 => 4
      case _ => 0;
    assert PartsAt(Slot(r).prefix, Slot(r + 1).prefix, d);
  }

  lemma NeighboursPart1(r: nat)
    requires 5 <= r < 10
    ensures Parts(Slot(r).prefix, Slot(r + 1).prefix)
  {
    var d :=
      match r
      case 5 => 2
      case 6 => 3
      case 7 => 1
      case 8 => 0
      case _ => 0;
    assert PartsAt(Slot(r).prefix, Slot(r + 1).prefix, d);
  }

  lemma NeighboursPart2(r: nat)
    requires 10 <= r < 15
    ensures Parts(Slot(r).prefix, Slot(r + 1).prefix)
  {
    var d :=
      match r
      case 10 => 0
      case 11 => 0
      case 12 => 0
      case 13 => 2
      case _ => 1;
    assert PartsAt(Slot(r).prefix, Slot(r + 1).prefix, d);
  }

  lemma NeighboursPart3(r: nat)
    requires 15 <= r < 20
    ensures Parts(Slot(r).prefix, Slot(r + 1).prefix)
  {
    var d :=
      match r
      case 15 => 0
      case 16 => 0
      case 17 => 1
      case 18 => 3
      case _ => 0;
    assert PartsAt(Slot(r).prefix, Slot(r + 1).prefix, d);
  }

  lemma NeighboursPart4(r: nat)
    requires 20 <= r < 25
    ensures Parts(Slot(r).prefix, Slot(r + 1).prefix)
  {
    var d :=
      match r
      case 20 => 1
      case 21 => 2
      case 22 => 0
      case 23 => 6
      case _ => 2;
    assert PartsAt(Slot(r).prefix, Slot(r + 1).prefix, d);
  }

  lemma NeighboursPart5(r: nat)
    requires 25 <= r < 30
    ensures Parts(Slot(r).prefix, Slot(r + 1).prefix)
  {
    var d :=
      match r
      case 25 => 1
      case 26 => 1
      case 27 => 0
      case 28 => 1
      case _ => 1;
    assert PartsAt(Slot(r).prefix, Slot(r + 1).prefix, d);
  }

  lemma NeighboursPart6(r: nat)
    requires 30 <= r < 35
    ensures Parts(Slot(r).prefix, Slot(r + 1).prefix)
  {
    var d :=
      match r
      case 30 => 0
      case 31 => 3
      case 32 => 3
      case 33 => 6
      case _ => 3;
    assert PartsAt(Slot(r).prefix, Slot(r + 1).prefix, d);
  }

  lemma NeighboursPart7(r: nat)
    requires 35 <= r < 40
    ensures Parts(Slot(r).prefix, Slot(r + 1).prefix)
  {
    var d :=
      match r
      case 35 => 3
      case 36 => 7
      case 37 => 7
      case 38 => 3
      case _ => 0;
    assert PartsAt(Slot(r).prefix, Slot(r + 1).prefix, d);
  }

  lemma NeighboursPart8(r: nat)
    requires 40 <= r < 42
    ensures Parts(Slot(r).prefix, Slot(r + 1).prefix)
  {
    var d :=
      match r
      case 40 => 3
      case _ => 0;
    assert PartsAt(Slot(r).prefix, Slot(r + 1).prefix, d);
  }

  lemma NeighboursPart(r: nat)
    requires r + 1 < SLOTS
    ensures Parts(Slot(r).prefix, Slot(r + 1).prefix)
  {
    hide Slot, Parts;
    if r < 5 {
      NeighboursPart0(r);
    } else if r < 10 {
      NeighboursPart1(r);
    } else if r < 15 {
      NeighboursPart2(r);
    } else if r < 20 {
      NeighboursPart3(r);
    } else if r < 25 {
      NeighboursPart4(r);
    } else if r < 30 {
      NeighboursPart5(r);
    } else if r < 35 {
      NeighboursPart6(r);
    } else if r < 40 {
      NeighboursPart7(r);
    } else {
      NeighboursPart8(r);
    }
  }

  lemma {:induction false} SlotsPart(r: nat, s: nat)
    requires r < s < SLOTS
    ensures Parts(Slot(r).prefix, Slot(s).prefix)
    decreases s
  {
    hide Slot, Parts;
    NeighboursPart(s - 1);
    if r < s - 1 {
      SlotsPart(r, s - 1);
      PartsTransitive(Slot(r).prefix, Slot(s - 1).prefix, Slot(s).prefix);
    }
  }

  lemma EarlySlot(i: nat, j: nat) returns (r: nat)
    requires i < 8 && j < |CATALOGUE[i].prefixes|
    ensures r < SLOTS && Slot(r) == Entry(CATALOGUE[i].prefixes[j], CATALOGUE[i].id)
  {
    match i {
      case 0 => r := if j == 0 then 20 else if j == 1 then 11 else if j == 2 then 3 else 16;
      case 1 => r := if j == 0 then 1 else if j == 1 then 40 else 41;
      case 2 => r := if j == 0 then 21 else if j == 1 then 22 else if j == 2 then 9 else 15;
      case 3 => r := 30;
      case 4 => r := if j == 0 then 8 else 0;
      case 5 => r := if j == 0 then 5 else 14;
      case 6 => r := 26;
      case _ => r := if j == 0 then 42 else 19;
    }
  }

  lemma LateSlot(i: nat, j: nat) returns (r: nat)
    requires 8 <= i < |CATALOGUE| && j < |CATALOGUE[i].prefixes|
    ensures r < SLOTS && Slot(r) == Entry(CATALOGUE[i].prefixes[j], CATALOGUE[i].id)
  {
    match i {
      case 8 => r := if j == 0 then 28 else if j == 1 then 6 else if j == 2 then 7 else if j == 3 then 24 else 23;
      case 9 => r := if j == 0 then 2 else if j == 1 then 13 else if j == 2 then 4 else if j == 3 then 29 else if j == 4 then 27 else 10;
      case 10 => r := 18;
      case 11 => r := if j == 0 then 17 else if j == 1 then 35 else 31;
      case _ => r := if j == 0 then 12 else if j == 1 then 25 else if j == 2 then 32 else if j == 3 then 39 else if j == 4 then 36 else if j == 5 then 38 else if j == 6 then 33 else if j == 7 then 37 else 34;
    }
  }

  /** Every prefix of the catalogue has its slot, under its own section. */
  lemma SlotOf(i: nat, j: nat) returns (r: nat)
    requires i < |CATALOGUE| && j < |CATALOGUE[i].prefixes|
    ensures r < SLOTS && Slot(r) == Entry(CATALOGUE[i].prefixes[j], CATALOGUE[i].id)
  {
    if i < 8 {
      r := EarlySlot(i, j);
    } else {
      r := LateSlot(i, j);
    }
  }

  /** No key is claimed by two sections. */
  ghost predicate Unambiguous(cat: seq<Section>) {
    forall i, k, key :: 0 <= i < |cat| && 0 <= k < |cat| && Claims(cat[i], key) && Claims(cat[k], key) ==> cat[i].id == cat[k].id
  }

  lemma CatalogueUnambiguous()
    ensures Unambiguous(CATALOGUE)
  {
    hide CATALOGUE, Slot;
    forall i, k, key | 0 <= i < |CATALOGUE| && 0 <= k < |CATALOGUE| && Claims(CATALOGUE[i], key) && Claims(CATALOGUE[k], key)
      ensures CATALOGUE[i].id == CATALOGUE[k].id
    {
      var p := CATALOGUE[i].prefixes;
      var q := CATALOGUE[k].prefixes;
      var j :| 0 <= j < |p| && p[j] <= key;
      var l :| 0 <= l < |q| && q[l] <= key;
      var r := SlotOf(i, j);
      var s := SlotOf(k, l);
      if r < s {
        SlotsPart(r, s);
        PartedExclude(p[j], q[l], key);
      } else if s < r {
        SlotsPart(s, r);
        PartedExclude(q[l], p[j], key);
      }
    }
  }

  lemma {:induction false} ClaimedWins(cat: seq<Section>, key: string, i: nat)
    requires Unambiguous(cat) && i < |cat| && Claims(cat[i], key)
    ensures SectionIn(cat, key) == cat[i].id
    decreases |cat|
  {
    if !Claims(cat[0], key) {
      assert forall k :: 0 <= k < |cat| - 1 ==> cat[1..][k] == cat[k + 1];
      ClaimedWins(cat[1..], key, i - 1);
    }
  }

  lemma {:induction false} UnclaimedIsAdvanced(cat: seq<Section>, key: string)
    requires forall i :: 0 <= i < |cat| ==> !Claims(cat[i], key)
    ensures SectionIn(cat, key) == ADVANCED
    decreases |cat|
  {
    if cat != [] {
      assert forall k :: 0 <= k < |cat| - 1 ==> cat[1..][k] == cat[k + 1];
      UnclaimedIsAdvanced(cat[1..], key);
    }
  }

  ghost predicate SameSections(cat: seq<Section>, other: seq<Section>) {
    && (forall i :: 0 <= i < |cat| ==> cat[i] in other)
    && (forall i :: 0 <= i < |other| ==> other[i] in cat)
  }

  /** A key's section does not depend on the order of the catalogue. */
  lemma OrderDoesNotMatter(cat: seq<Section>, key: string)
    requires SameSections(CATALOGUE, cat)
    ensures SectionIn(cat, key) == SectionIn(CATALOGUE, key)
  {
    CatalogueUnambiguous();
    hide CATALOGUE, Claims, SectionIn;
    Reordered(cat);
    if i :| 0 <= i < |cat| && Claims(cat[i], key) {
      ClaimedWins(cat, key, i);
      var k :| 0 <= k < |CATALOGUE| && CATALOGUE[k] == cat[i];
      ClaimedWins(CATALOGUE, key, k);
    } else {
      UnclaimedIsAdvanced(cat, key);
      forall k | 0 <= k < |CATALOGUE| ensures !Claims(CATALOGUE[k], key) {
        var i :| 0 <= i < |cat| && cat[i] == CATALOGUE[k];
      }
      UnclaimedIsAdvanced(CATALOGUE, key);
    }
  }

  lemma Reordered(cat: seq<Section>)
    requires SameSections(CATALOGUE, cat) && Unambiguous(CATALOGUE)
    ensures Unambiguous(cat)
  {
    hide CATALOGUE, Claims;
    forall i, k, key | 0 <= i < |cat| && 0 <= k < |cat| && Claims(cat[i], key) && Claims(cat[k], key)
      ensures cat[i].id == cat[k].id
    {
      var a :| 0 <= a < |CATALOGUE| && CATALOGUE[a] == cat[i];
      var b :| 0 <= b < |CATALOGUE| && CATALOGUE[b] == cat[k];
    }
  }

  // ---- Keys ----

  predicate IsHeader(key: string) {
    "_backup/" <= key
  }

  /** Hardware identity and per-machine state. */
  predicate MachineSpecific(key: string) {
    || key == "ui/graphicsBackend"
    || "ui/gfx" <= key
    || key == "app/factoryResetPending"
    || key == "ui/uiSafeReset"
    || key == "radio/lastIp"
    || "lastRadio/" <= key
    || "profileLaunch/" <= key
  }

  function SlashFrom(key: string, from: nat): (i: nat)
    requires from <= |key|
    ensures from <= i <= |key| && (i < |key| ==> key[i] == '/') && forall j :: from <= j < i ==> key[j] != '/'
    decreases |key| - from
  {
    if from == |key| || key[from] == '/' then from else SlashFrom(key, from + 1)
  }

  /** Takes a leading per-rig scope off a key. */
  function Stripped(key: string): string {
    if !("rig/" <= key) then key
    else
      var slash := SlashFrom(key, 4);
      if slash == |key| then key else key[slash + 1..]
  }

  /** The section a key travels with; none for what must not travel. */
  function SectionForKey(key: string): string {
    var logical := Stripped(key);
    if MachineSpecific(logical) then "" else SectionIn(CATALOGUE, logical)
  }

  lemma {:induction false} SectionInCatalogue(cat: seq<Section>, key: string)
    ensures SectionIn(cat, key) == ADVANCED || exists i :: 0 <= i < |cat| && cat[i].id == SectionIn(cat, key)
    decreases |cat|
  {
    if cat != [] && !Claims(cat[0], key) {
      SectionInCatalogue(cat[1..], key);
      if i :| 0 <= i < |cat| - 1 && cat[1..][i].id == SectionIn(cat[1..], key) {
        assert cat[i + 1].id == SectionIn(cat, key);
      }
    }
  }

  lemma NoRigScope(key: string)
    requires "rig/" <= key
    ensures !MachineSpecific(key)
  {
    assert key[0] == 'r' && key[1] == 'i';
  }

  lemma SectionNamesAreNamed(i: nat)
    requires i < |CATALOGUE|
    ensures CATALOGUE[i].id != ""
  {
  }

  /** A key has a section exactly when its rig-stripped form is not machine-specific. */
  lemma TravelsIff(key: string)
    ensures SectionForKey(key) != "" <==> !MachineSpecific(Stripped(key))
    ensures MachineSpecific(key) ==> SectionForKey(key) == ""
  {
    if "rig/" <= key {
      NoRigScope(key);
    }
    SectionInCatalogue(CATALOGUE, Stripped(key));
    hide CATALOGUE, SectionIn, MachineSpecific, Stripped;
    if i :| 0 <= i < |CATALOGUE| && CATALOGUE[i].id == SectionIn(CATALOGUE, Stripped(key)) {
      SectionNamesAreNamed(i);
    }
  }

  // ---- Stores ----

  type Store<V> = map<string, V>

  /** What goes into a backup file, apart from its header. */
  function Exported<V>(src: Store<V>): Store<V> {
    map k | k in src && !MachineSpecific(k) && !IsHeader(k) :: src[k]
  }

  function Headed<V>(body: Store<V>, header: Store<V>): Store<V> {
    body + header
  }

  /** A file's header: keys of its own, never restored. */
  ghost predicate HeaderOnly<V>(header: Store<V>) {
    forall k | k in header :: IsHeader(k)
  }

  predicate Wanted(key: string, chosen: set<string>) {
    !IsHeader(key) && !MachineSpecific(key) && SectionForKey(key) != "" && SectionForKey(key) in chosen
  }

  function Picked<V>(file: Store<V>, chosen: set<string>): Store<V> {
    map k | k in file && Wanted(k, chosen) :: file[k]
  }

  function Restored<V>(live: Store<V>, file: Store<V>, chosen: set<string>): Store<V> {
    live + Picked(file, chosen)
  }

  /** A restored key that says the window layout came back. */
  predicate TouchesLayout(key: string, chosen: set<string>) {
    Wanted(key, chosen) && "ui/" <= key && LayoutSection(CATALOGUE, SectionForKey(key))
  }

  predicate LayoutSection(cat: seq<Section>, id: string) {
    exists i :: 0 <= i < |cat| && cat[i].layout && cat[i].id == id
  }

  function Present<V>(file: Store<V>): set<string> {
    set k | k in file && !IsHeader(k) && SectionForKey(k) != "" :: SectionForKey(k)
  }

  /** A restore writes the file's own keys of the chosen sections, and nothing else changes. */
  lemma RestoresExactly<V>(live: Store<V>, file: Store<V>, chosen: set<string>, key: string)
    ensures var r := Restored(live, file, chosen);
            && (key in r <==> key in live || (key in file && Wanted(key, chosen)))
            && (key in r ==> r[key] == if key in file && Wanted(key, chosen) then file[key] else live[key])
  {
    hide SectionForKey, MachineSpecific, IsHeader;
  }

  lemma WantedByEither(key: string, a: set<string>, b: set<string>)
    ensures Wanted(key, a + b) <==> Wanted(key, a) || Wanted(key, b)
  {
    hide SectionForKey, MachineSpecific, IsHeader;
  }

  /** Restoring some sections and then others is restoring them together. */
  lemma RestoresCompose<V>(live: Store<V>, file: Store<V>, a: set<string>, b: set<string>)
    ensures Restored(Restored(live, file, a), file, b) == Restored(live, file, a + b)
  {
    hide Wanted;
    forall k ensures Wanted(k, a + b) <==> Wanted(k, a) || Wanted(k, b) {
      WantedByEither(k, a, b);
    }
  }

  /** The order of two restores from one file does not matter, and a second one changes nothing. */
  lemma RestoresCommute<V>(live: Store<V>, file: Store<V>, a: set<string>, b: set<string>)
    ensures Restored(Restored(live, file, a), file, b) == Restored(Restored(live, file, b), file, a)
    ensures Restored(Restored(live, file, a), file, a) == Restored(live, file, a)
  {
    RestoresCompose(live, file, a, b);
    RestoresCompose(live, file, b, a);
    RestoresCompose(live, file, a, a);
    assert a + b == b + a && a + a == a;
    hide Restored;
  }

  /**
   * A full restore of an export into an empty store: a key is there, with its value, exactly when it
   * was exported from and its rig-stripped form is not machine-specific.
   */
  lemma ExportRestoresIff<V>(src: Store<V>, header: Store<V>, all: set<string>, key: string)
    requires HeaderOnly(header)
    requires forall k :: k in src && SectionForKey(k) != "" ==> SectionForKey(k) in all
    ensures var r := Restored(map[], Headed(Exported(src), header), all);
            && (key in r <==> key in src && !IsHeader(key) && !MachineSpecific(Stripped(key)))
            && (key in r ==> r[key] == src[key])
  {
    hide SectionForKey, MachineSpecific, IsHeader, Stripped;
    TravelsIff(key);
    var file := Headed(Exported(src), header);
    RestoresExactly(map[], file, all, key);
  }

  /** A section is listed as present exactly when restoring it alone writes something. */
  lemma PresentIff<V>(file: Store<V>, id: string)
    ensures id in Present(file) <==> Picked(file, {id}) != map[]
  {
    hide SectionForKey, MachineSpecific, IsHeader;
    forall k ensures MachineSpecific(k) ==> SectionForKey(k) == "" {
      TravelsIff(k);
    }
    if id in Present(file) {
      var k :| k in file && !IsHeader(k) && SectionForKey(k) != "" && SectionForKey(k) == id;
      assert k in Picked(file, {id});
    }
    if Picked(file, {id}) != map[] {
      var k :| k in Picked(file, {id});
    }
  }

  /**
   * The export looks at the key as it is, the restore at its rig-stripped form: exactly the rig-scoped
   * copies of machine-specific keys are written into a backup and have no section to come back with.
   */
  lemma ExportedUnrestorableIff<V>(src: Store<V>, key: string)
    ensures key in Exported(src) && SectionForKey(key) == ""
            <==> key in src && !IsHeader(key) && !MachineSpecific(key) && MachineSpecific(Stripped(key))
  {
    TravelsIff(key);
    hide SectionForKey, MachineSpecific, IsHeader, Stripped;
  }

  /** Every machine-specific key under a rig's scope is such a key. */
  lemma RigScopedIdentityTravels<V>(src: Store<V>, header: Store<V>, all: set<string>, id: string, key: string)
    requires HeaderOnly(header) && MachineSpecific(key) && Lacks(id)
    requires "rig/" + id + "/" + key in src
    ensures var scoped := "rig/" + id + "/" + key;
            && scoped in Exported(src) && scoped !in Restored(map[], Headed(Exported(src), header), all)
  {
    var scoped := "rig/" + id + "/" + key;
    StripsTo(id, key);
    NoRigScope(scoped);
    TravelsIff(scoped);
    assert scoped[0] == 'r';
    hide SectionForKey, MachineSpecific, Stripped;
    RestoresExactly(map[], Headed(Exported(src), header), all, scoped);
  }

  predicate Lacks(id: string) {
    forall i :: 0 <= i < |id| ==> id[i] != '/'
  }

  /** A scoped key has the section of its flat form. */
  lemma StripsTo(id: string, key: string)
    requires Lacks(id)
    ensures Stripped("rig/" + id + "/" + key) == key
  {
    var scoped := "rig/" + id + "/" + key;
    assert scoped == "rig/" + (id + "/" + key);
    var slash := SlashFrom(scoped, 4);
    assert scoped[4 + |id|] == '/';
    assert forall j :: 4 <= j < 4 + |id| ==> scoped[j] == id[j - 4];
    assert slash == 4 + |id|;
  }

  /** A listing of a store's keys. */
  ghost predicate Lists<V>(keys: seq<string>, file: Store<V>) {
    && (forall i :: 0 <= i < |keys| ==> keys[i] in file)
    && (forall k | k in file :: k in keys)
    && (forall i, j :: 0 <= i < j < |keys| ==> keys[i] != keys[j])
  }

  /** What the first n listed keys bring. */
  function PickedFrom<V>(file: Store<V>, keys: seq<string>, n: nat, chosen: set<string>): Store<V>
    requires n <= |keys|
  {
    if n == 0 then map[]
    else
      var last, before := keys[n - 1], PickedFrom(file, keys, n - 1, chosen);
      if last in file && Wanted(last, chosen) then before[last := file[last]] else before
  }

  lemma {:induction false} PickedFromHolds<V>(file: Store<V>, keys: seq<string>, n: nat, chosen: set<string>)
    requires n <= |keys|
    ensures var m := PickedFrom(file, keys, n, chosen);
            && (forall k :: k in m <==> k in keys[..n] && k in file && Wanted(k, chosen))
            && (forall k :: k in m ==> m[k] == file[k])
  {
    hide Wanted;
    if n > 0 {
      PickedFromHolds(file, keys, n - 1, chosen);
      assert keys[..n] == keys[..n - 1] + [keys[n - 1]];
    }
  }

  lemma PickedFromAll<V>(file: Store<V>, keys: seq<string>, chosen: set<string>)
    requires Lists(keys, file)
    ensures PickedFrom(file, keys, |keys|, chosen) == Picked(file, chosen)
  {
    PickedFromHolds(file, keys, |keys|, chosen);
    assert keys[..|keys|] == keys;
    hide Wanted, PickedFrom;
  }

  lemma NotYetPicked<V>(file: Store<V>, keys: seq<string>, i: nat, chosen: set<string>)
    requires Lists(keys, file) && i < |keys|
    ensures keys[i] in file && keys[i] !in PickedFrom(file, keys, i, chosen)
  {
    PickedFromHolds(file, keys, i, chosen);
    hide PickedFrom, Wanted;
  }

  predicate Touched(keys: seq<string>, n: nat, chosen: set<string>)
    requires n <= |keys|
  {
    n > 0 && (Touched(keys, n - 1, chosen) || TouchesLayout(keys[n - 1], chosen))
  }

  lemma {:induction false} TouchedIff<V>(file: Store<V>, keys: seq<string>, chosen: set<string>, n: nat)
    requires n <= |keys|
    ensures Touched(keys, n, chosen) <==> exists i :: 0 <= i < n && TouchesLayout(keys[i], chosen)
    ensures n == |keys| && Lists(keys, file) ==> (Touched(keys, n, chosen) <==> exists k :: k in file && TouchesLayout(k, chosen))
  {
    hide TouchesLayout;
    if n > 0 {
      TouchedIff(file, keys, chosen, n - 1);
    }
  }

  lemma AddedLast<V>(a: Store<V>, b: Store<V>, key: string, v: V)
    ensures (a + b)[key := v] == a + b[key := v]
  {
  }

  lemma Unwanted(key: string, chosen: set<string>)
    requires !Wanted(key, chosen)
    ensures !TouchesLayout(key, chosen)
  {
  }

  class Settings<V> {
    var live: Store<V>

    /** Copies the chosen sections of a file, and says how many keys and whether the layout was among them. */
    method RestoreFromFile(file: Store<V>, keys: seq<string>, chosen: set<string>) returns (n: nat, touchedLayout: bool)
      requires Lists(keys, file)
      modifies this
      ensures live == Restored(old(live), file, chosen)
      ensures n == |Picked(file, chosen)|
      ensures touchedLayout <==> exists k :: k in file && TouchesLayout(k, chosen)
    {
      hide Wanted, TouchesLayout, Lists;
      n, touchedLayout := 0, false;
      ghost var done: Store<V> := map[];
      for i := 0 to |keys|
        invariant done == PickedFrom(file, keys, i, chosen)
        invariant live == old(live) + done && n == |done|
        invariant touchedLayout == Touched(keys, i, chosen)
      {
        var k := keys[i];
        NotYetPicked(file, keys, i, chosen);
        if Wanted(k, chosen) {
          AddedLast(old(live), done, k, file[k]);
          live := live[k := file[k]];
          done := done[k := file[k]];
          n := n + 1;
          if !touchedLayout {
            touchedLayout := TouchesLayout(k, chosen);
          }
        } else {
          Unwanted(k, chosen);
        }
      }
      PickedFromAll(file, keys, chosen);
      TouchedIff(file, keys, chosen, |keys|);
    }
  }

  // ---- Snapshots ----

  datatype Snapshot = Snapshot(path: string, automatic: bool, taken: int)

  function Automatic(snaps: seq<Snapshot>): nat {
    if snaps == [] then 0 else (if snaps[0].automatic then 1 else 0) + Automatic(snaps[1..])
  }

  /** What a prune leaves, newest first, once some automatic snapshots were passed. */
  function Pruned(snaps: seq<Snapshot>, keep: nat, seen: nat): seq<Snapshot> {
    if snaps == [] then []
    else if !snaps[0].automatic then [snaps[0]] + Pruned(snaps[1..], keep, seen)
    else if seen + 1 > keep then Pruned(snaps[1..], keep, seen + 1)
    else [snaps[0]] + Pruned(snaps[1..], keep, seen + 1)
  }

  lemma {:induction false} PruneKeeps(snaps: seq<Snapshot>, keep: nat, seen: nat)
    ensures var r := Pruned(snaps, keep, seen);
            && Automatic(r) == (if seen >= keep then 0 else if Automatic(snaps) <= keep - seen then Automatic(snaps) else keep - seen)
            && (forall i :: 0 <= i < |snaps| && !snaps[i].automatic ==> snaps[i] in r)
            && (forall i :: 0 <= i < |r| ==> r[i] in snaps)
            && |snaps| - |r| == Automatic(snaps) - Automatic(r)
  {
    hide Pruned, Automatic;
    PruneCounts(snaps, keep, seen);
    forall x: Snapshot
      ensures (x in Pruned(snaps, keep, seen) ==> x in snaps) && (x in snaps && !x.automatic ==> x in Pruned(snaps, keep, seen))
    {
      PruneSelects(snaps, keep, seen, x);
    }
  }

  lemma {:induction false} PruneCounts(snaps: seq<Snapshot>, keep: nat, seen: nat)
    ensures var r := Pruned(snaps, keep, seen);
            && Automatic(r) == (if seen >= keep then 0 else if Automatic(snaps) <= keep - seen then Automatic(snaps) else keep - seen)
            && |snaps| - |r| == Automatic(snaps) - Automatic(r)
    decreases |snaps|
  {
    if snaps != [] {
      var rest, after := snaps[1..], if snaps[0].automatic then seen + 1 else seen;
      PruneCounts(rest, keep, after);
      var r := Pruned(snaps, keep, seen);
      if r != Pruned(rest, keep, after) {
        assert r[1..] == Pruned(rest, keep, after);
      }
    }
  }

  lemma {:induction false} PruneSelects(snaps: seq<Snapshot>, keep: nat, seen: nat, x: Snapshot)
    ensures x in Pruned(snaps, keep, seen) ==> x in snaps
    ensures x in snaps && !x.automatic ==> x in Pruned(snaps, keep, seen)
    decreases |snaps|
  {
    if snaps != [] {
      PruneSelects(snaps[1..], keep, if snaps[0].automatic then seen + 1 else seen, x);
      assert snaps == [snaps[0]] + snaps[1..];
    }
  }

  /** One turn of the prune loop. */
  lemma PrunedStep(left: seq<Snapshot>, snaps: seq<Snapshot>, i: nat, keep: nat, seen: nat)
    requires i < |snaps|
    ensures var after := if snaps[i].automatic then seen + 1 else seen;
            var kept := if snaps[i].automatic && after > keep then left else left + [snaps[i]];
            left + Pruned(snaps[i..], keep, seen) == kept + Pruned(snaps[i + 1..], keep, after)
  {
    assert snaps[i..][1..] == snaps[i + 1..];
  }

  lemma NothingToPrune(snaps: seq<Snapshot>, keep: nat, seen: nat)
    ensures Pruned(snaps[|snaps|..], keep, seen) == []
  {
  }

  ghost predicate NewestFirst(snaps: seq<Snapshot>) {
    forall i, j :: 0 <= i < j < |snaps| ==> snaps[i].taken > snaps[j].taken
  }

  /** No automatic snapshot that was kept is older than one that was removed. */
  lemma {:induction false} PruneDropsOldest(snaps: seq<Snapshot>, keep: nat, seen: nat, kept: Snapshot, dropped: Snapshot)
    requires NewestFirst(snaps) && kept.automatic && dropped.automatic
    requires kept in Pruned(snaps, keep, seen) && dropped in snaps && dropped !in Pruned(snaps, keep, seen)
    ensures kept.taken > dropped.taken
    decreases |snaps|
  {
    var rest, after := snaps[1..], if snaps[0].automatic then seen + 1 else seen;
    assert forall i :: 0 <= i < |rest| ==> rest[i] == snaps[i + 1];
    PruneKeeps(rest, keep, after);
    if dropped == snaps[0] {
      NoneLeft(rest, keep, after, kept);
    } else if kept == snaps[0] {
      var j :| 0 <= j < |snaps| && snaps[j] == dropped;
    } else {
      PruneDropsOldest(rest, keep, after, kept, dropped);
    }
  }

  lemma {:induction false} NoneLeft(snaps: seq<Snapshot>, keep: nat, seen: nat, s: Snapshot)
    requires seen >= keep && s.automatic
    ensures s !in Pruned(snaps, keep, seen)
    decreases |snaps|
  {
    if snaps != [] {
      NoneLeft(snaps[1..], keep, if snaps[0].automatic then seen + 1 else seen, s);
    }
  }

  // ---- A snapshot every so many launches ----

  datatype Launches = Launches(counter: int, taken: nat)

  function Launch(s: Launches, every: int): Launches {
    if every <= 0 then s
    else if s.counter + 1 >= every then Launches(0, s.taken + 1)
    else s.(counter := s.counter + 1)
  }

  function Launched(s: Launches, every: int, n: nat): Launches {
    if n == 0 then s else Launch(Launched(s, every, n - 1), every)
  }

  /** From a fresh counter, exactly every so-many-th launch has taken a snapshot. */
  lemma {:induction false} EverySoMany(every: int, n: nat)
    requires every > 0
    ensures var s := Launched(Launches(0, 0), every, n);
            0 <= s.counter < every && s.taken * every + s.counter == n
  {
    if n > 0 {
      EverySoMany(every, n - 1);
      var s := Launched(Launches(0, 0), every, n - 1);
      assert (s.taken + 1) * every == s.taken * every + every;
    }
  }

  class Snapshots {
    var counter: int
    var taken: nat
    var files: seq<Snapshot>

    /** Removes automatic snapshots beyond the newest few; negative counts as none. */
    method PruneAuto(keepAuto: int)
      modifies this`files
      ensures files == Pruned(old(files), if keepAuto < 0 then 0 else keepAuto, 0)
    {
      hide Pruned;
      var keep: nat := if keepAuto < 0 then 0 else keepAuto;
      var seen: nat, left: seq<Snapshot> := 0, [];
      assert files[0..] == files;
      for i := 0 to |files|
        invariant files == old(files)
        invariant left + Pruned(files[i..], keep, seen) == Pruned(files, keep, 0)
      {
        var si := files[i];
        PrunedStep(left, files, i, keep, seen);
        if !si.automatic {
          left := left + [si];
        } else {
          seen := seen + 1;
          if seen <= keep {
            left := left + [si];
          }
        }
      }
      NothingToPrune(files, keep, seen);
      files := left;
    }

    /** Once a launch: counts, and takes and prunes when it is due. */
    method AutoSnapshotOnLaunch(every: int, keep: int, now: Snapshot)
      requires now.automatic
      modifies this
      ensures Launches(counter, taken) == Launch(Launches(old(counter), old(taken)), every)
      ensures files == if every > 0 && old(counter) + 1 >= every
                       then Pruned([now] + old(files), if keep < 0 then 0 else keep, 0) else old(files)
    {
      if every <= 0 {
        return;
      }
      var ctr := counter + 1;
      if ctr >= every {
        files := [now] + files;
        taken := taken + 1;
        PruneAuto(keep);
        ctr := 0;
      }
      counter := ctr;
    }
  }
}
