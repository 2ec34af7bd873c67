/** What travels in a backup and what does not, key by key. */
module BackupScope {
  import opened Backup

  /** The keys that belong to the machine: graphics, crash recovery, reset sentinels, addresses, launch paths. */
  predicate OfThisMachine(key: string) {
    || key in {"ui/graphicsBackend", "app/factoryResetPending", "ui/uiSafeReset", "radio/lastIp"}
    || "ui/gfx" <= key || "lastRadio/" <= key || "profileLaunch/" <= key
  }

  /** Exactly what an export writes: everything but those keys and the header's own. */
  lemma ExportedIff<V>(src: Store<V>, key: string)
    ensures key in Exported(src) <==> key in src && !OfThisMachine(key) && !("_backup/" <= key)
    ensures key in Exported(src) ==> Exported(src)[key] == src[key]
  {
  }

  /** No restore, of whatever file and sections, writes one of them, under a rig's scope or not, nor a header key. */
  lemma StaysOnTheMachine<V>(live: Store<V>, file: Store<V>, chosen: set<string>, key: string)
    requires OfThisMachine(key) || OfThisMachine(Stripped(key)) || "_backup/" <= key
    ensures var r := Restored(live, file, chosen); (key in r <==> key in live) && (key in r ==> r[key] == live[key])
  {
    TravelsIff(key);
    RestoresExactly(live, file, chosen, key);
    hide SectionForKey, Stripped;
  }

  /** A key that starts with a prefix of the catalogue, or is one, travels with that section. */
  lemma TravelsWithItsPrefix(i: nat, j: nat, rest: string)
    requires i < |CATALOGUE| && j < |CATALOGUE[i].prefixes|
    ensures var key := CATALOGUE[i].prefixes[j] + rest;
            !OfThisMachine(key) && !("rig/" <= key) ==> SectionForKey(key) == CATALOGUE[i].id
  {
    var key := CATALOGUE[i].prefixes[j] + rest;
    CatalogueUnambiguous();
    assert CATALOGUE[i].prefixes[j] <= key;
    assert Claims(CATALOGUE[i], key);
    ClaimedWins(CATALOGUE, key, i);
    hide CATALOGUE, Claims, SectionIn;
    if !("rig/" <= key) {
      FlatKey(key);
    }
  }

  lemma FlatKey(key: string)
    requires !("rig/" <= key)
    ensures SectionForKey(key) == if OfThisMachine(key) then "" else SectionIn(CATALOGUE, key)
  {
    hide CATALOGUE, SectionIn;
  }

  /** A scope without an end is no scope. */
  lemma NoScopeWithoutItsSlash(id: string)
    requires forall j :: 0 <= j < |id| ==> id[j] != '/'
    ensures Stripped("rig/" + id) == "rig/" + id
  {
    var key := "rig/" + id;
    assert key[4..] == id && forall j :: 4 <= j < |key| ==> key[j] == id[j - 4];
  }

  /** Exactly which restored keys say that the window layout came back: those of the layout section kept under the window's own name. */
  lemma LayoutIff(key: string, chosen: set<string>)
    ensures TouchesLayout(key, chosen) <==> Wanted(key, chosen) && "ui/" <= key && SectionForKey(key) == "layout"
  {
    OneLayoutSection(SectionForKey(key));
    hide CATALOGUE, Wanted, SectionForKey, LayoutSection;
  }

  lemma OneLayoutSection(id: string)
    ensures LayoutSection(CATALOGUE, id) <==> id == "layout"
  {
    assert CATALOGUE[12].layout && CATALOGUE[12].id == "layout";
    if LayoutSection(CATALOGUE, id) {
      var i :| 0 <= i < |CATALOGUE| && CATALOGUE[i].layout && CATALOGUE[i].id == id;
      OnlyTheLast(i);
    }
  }

  lemma OnlyTheLast(i: nat)
    requires i < |CATALOGUE|
    ensures CATALOGUE[i].layout <==> i == 12
  {
  }

  /** Without a period no launch ever counts or takes a snapshot. */
  lemma {:induction false} NeverWithoutPeriod(s: Launches, every: int, n: nat)
    requires every <= 0
    ensures Launched(s, every, n) == s
  {
    if n > 0 {
      NeverWithoutPeriod(s, every, n - 1);
    }
  }
}
