/** The remembered layout and the list of trusted clients. */
module Config {
  import opened Core

  datatype ScreenLayout = ScreenLayout(key: ScreenKey, cell: GridPosition)

  datatype TrustedClient = TrustedClient(machineId: string, name: string)

  datatype AppConfig = AppConfig(machineId: string, screens: seq<ScreenLayout>, trustedClients: seq<TrustedClient>)

  /** Index of the first entry for the key, or the length of the list. */
  function LayoutIndex(layouts: seq<ScreenLayout>, key: ScreenKey): (i: nat)
    ensures i <= |layouts|
    ensures i < |layouts| ==> layouts[i].key == key
    ensures forall j :: 0 <= j < i ==> layouts[j].key != key
  {
    if layouts == [] || layouts[0].key == key then 0
    else 1 + LayoutIndex(layouts[1..], key)
  }

  function FindLayout(layouts: seq<ScreenLayout>, key: ScreenKey): Option<GridPosition> {
    var i := LayoutIndex(layouts, key);
    if i < |layouts| then Some(layouts[i].cell) else None
  }

  function UpsertLayout(layouts: seq<ScreenLayout>, layout: ScreenLayout): seq<ScreenLayout> {
    var i := LayoutIndex(layouts, layout.key);
    if i < |layouts| then layouts[i := layout] else layouts + [layout]
  }

  lemma LayoutIndexUnique(layouts: seq<ScreenLayout>, key: ScreenKey, i: nat)
    requires i <= |layouts|
    requires i < |layouts| ==> layouts[i].key == key
    requires forall j :: 0 <= j < i ==> layouts[j].key != key
    ensures LayoutIndex(layouts, key) == i
  {
  }

  /** Remembering one screen is a point update of the lookup. */
  lemma FindAfterUpsert(layouts: seq<ScreenLayout>, layout: ScreenLayout, key: ScreenKey)
    ensures FindLayout(UpsertLayout(layouts, layout), key)
         == if key == layout.key then Some(layout.cell) else FindLayout(layouts, key)
  {
    var after := UpsertLayout(layouts, layout);
    var i := LayoutIndex(layouts, key);
    if key != layout.key && i == |layouts| {
      forall j | 0 <= j < |after| ensures after[j].key != key { }
      LayoutIndexUnique(after, key, |after|);
    } else {
      LayoutIndexUnique(after, key, i);
    }
  }

  /** A remembered screen's row is replaced where it stands; a new one gets a row of its own, at the end. */
  lemma UpsertIsOneRow(layouts: seq<ScreenLayout>, layout: ScreenLayout, i: nat)
    requires i < |layouts| ==> layouts[i].key == layout.key
    requires i <= |layouts| && forall j :: 0 <= j < i ==> layouts[j].key != layout.key
    ensures UpsertLayout(layouts, layout) == if i < |layouts| then layouts[i := layout] else layouts + [layout]
  {
  }

  /** Remembering what is already remembered changes nothing. */
  lemma UpsertOfKnown(layouts: seq<ScreenLayout>, layout: ScreenLayout)
    requires FindLayout(layouts, layout.key) == Some(layout.cell)
    ensures UpsertLayout(layouts, layout) == layouts
  {
    assert layouts[LayoutIndex(layouts, layout.key)] == layout;
  }

  /** An empty list of trusted clients accepts everybody. */
  predicate IsTrustedClient(trusted: seq<TrustedClient>, machineId: string, name: string) {
    trusted == [] ||
    exists client :: client in trusted &&
      ((machineId != "" && client.machineId == machineId) || (name != "" && client.name == name))
  }

  /** Once anybody is listed, a client without id and name is never trusted; listing more never locks anybody out. */
  lemma TrustIsAnAllowList(trusted: seq<TrustedClient>, more: seq<TrustedClient>, machineId: string, name: string)
    ensures trusted != [] ==> !IsTrustedClient(trusted, "", "")
    ensures trusted != [] && IsTrustedClient(trusted, machineId, name) ==>
              IsTrustedClient(trusted + more, machineId, name)
  {
  }
}
