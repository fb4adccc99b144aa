/** The item-type icon and label lookups shared by the shop, inventory and
    item screens, and the keyed-lookup-with-fallback they are built from. */
module Utils {
  import opened Types

  /** `table[key] || fallback`: the fallback stands in for a missing key and
      for an entry holding the empty string, which JavaScript treats as false. */
  function LookupOr(table: map<string, string>, key: string, fallback: string): (r: string)
    ensures r == fallback || (key in table && r == table[key] && r != "")
    ensures key in table && table[key] != "" ==> r == table[key]
  {
    if key in table && table[key] != "" then table[key] else fallback
  }

  /** A label or icon table none of whose entries is the empty string. */
  predicate NoEmptyValues(table: map<string, string>) {
    forall key :: key in table ==> table[key] != ""
  }

  /** Over a table with no empty entries, `||` falls back exactly for a
      missing key (or for a present key whose entry equals the fallback). */
  lemma LookupOrMissingOnly(table: map<string, string>, key: string, fallback: string)
    requires NoEmptyValues(table)
    ensures key in table ==> LookupOr(table, key, fallback) == table[key]
    ensures key !in table ==> LookupOr(table, key, fallback) == fallback
  {
  }

  const ItemTypeIcons: map<string, string> :=
    map["game" := "🎮", "entertainment" := "🎤", "decoration" := "🎨"]

  const ItemTypeLabels: map<string, string> :=
    map["game" := "遊戲設備", "entertainment" := "娛樂設備", "decoration" := "裝飾物品"]

  const DefaultIcon: string := "📦"

  /** getItemTypeIcon */
  function GetItemTypeIcon(t: string): (r: string)
    ensures t !in ItemTypeIcons <==> r == DefaultIcon
  {
    LookupOr(ItemTypeIcons, t, DefaultIcon)
  }

  /** getItemTypeLabel */
  function GetItemTypeLabel(t: string): (r: string)
    ensures t !in ItemTypeLabels ==> r == t
    ensures t in ItemTypeLabels ==> r != t
  {
    LookupOr(ItemTypeLabels, t, t)
  }

  /** The three item types have their own icons, none of them the fallback icon. */
  lemma ItemTypeIconsDistinct(a: ItemType, b: ItemType)
    ensures GetItemTypeIcon(ItemTypeName(a)) != DefaultIcon
    ensures GetItemTypeIcon(ItemTypeName(a)) == GetItemTypeIcon(ItemTypeName(b)) <==> a == b
  {
  }

  /** The three item types have three distinct labels. */
  lemma ItemTypeLabelsDistinct(a: ItemType, b: ItemType)
    ensures GetItemTypeLabel(ItemTypeName(a)) == GetItemTypeLabel(ItemTypeName(b)) <==> a == b
  {
  }

  /** Neither item-type table holds an empty string, so their lookups fall back
      only for a type they do not list. */
  lemma ItemTypeTablesNonEmpty()
    ensures NoEmptyValues(ItemTypeIcons) && NoEmptyValues(ItemTypeLabels)
    ensures DefaultIcon !in ItemTypeIcons.Values
  {
  }

  /** The keys of both tables are exactly the item type names. */
  lemma ItemTypeTablesComplete(t: string)
    ensures t in ItemTypeIcons <==> t in ItemTypeLabels
    ensures t in ItemTypeLabels <==> exists k :: ItemTypeName(k) == t
  {
    if t in ItemTypeLabels {
      if t == "game" { assert ItemTypeName(Game) == t; }
      else if t == "entertainment" { assert ItemTypeName(Entertainment) == t; }
      else { assert ItemTypeName(Decoration) == t; }
    }
  }
}
