/** What the dashboard's classifiers return, and the colour-to-class
    switches shared by the composite chart and the risk gauge. */
module Zones {
  import opened Samples

  /** `{ zone, color, action }` */
  datatype ZoneInfo = ZoneInfo(zone: string, color: string, action: string)

  /** The five colours the classifiers use, hottest first. */
  const COLORS: seq<string> := ["red", "orange", "yellow", "green", "blue"]

  /** Index of the first occurrence of `x` in `table`, `|table|` if absent. */
  function Rank<T(==)>(table: seq<T>, x: T): (k: nat)
    ensures k <= |table|
    ensures k < |table| ==> table[k] == x
    ensures forall j :: 0 <= j < k ==> table[j] != x
  {
    if table == [] then 0
    else if table[0] == x then 0
    else 1 + Rank(table[1..], x)
  }

  /** In a table without repeats, an entry's rank is its position. */
  lemma RankOfEntry<T>(table: seq<T>, k: nat)
    requires Unique(table) && k < |table|
    ensures Rank(table, table[k]) == k
  {
  }

  /** The text and background classes of the five colours, in the order of
      `COLORS`. */
  const TEXT_CLASSES: seq<string> := [
    "text-red-600 dark:text-red-400", "text-orange-600 dark:text-orange-400",
    "text-yellow-600 dark:text-yellow-400", "text-green-600 dark:text-green-400",
    "text-blue-600 dark:text-blue-400"]
  const BG_CLASSES: seq<string> := [
    "bg-red-100 dark:bg-red-950", "bg-orange-100 dark:bg-orange-950",
    "bg-yellow-100 dark:bg-yellow-950", "bg-green-100 dark:bg-green-950",
    "bg-blue-100 dark:bg-blue-950"]

  /** `getColorClass`: the text class of a colour, grey for any other. */
  function TextColorClass(color: string): (c: string)
    ensures color !in COLORS ==> c == "text-gray-600 dark:text-gray-400"
    ensures color in COLORS ==> c == TEXT_CLASSES[Rank(COLORS, color)]
  {
    match color
    case "red" => "text-red-600 dark:text-red-400"
    case "orange" => "text-orange-600 dark:text-orange-400"
    case "yellow" => "text-yellow-600 dark:text-yellow-400"
    case "green" => "text-green-600 dark:text-green-400"
    case "blue" => "text-blue-600 dark:text-blue-400"
    case _ => "text-gray-600 dark:text-gray-400"
  }

  /** `getBgColorClass`: the background class of a colour, grey for any
      other. */
  function BgColorClass(color: string): (c: string)
    ensures color !in COLORS ==> c == "bg-gray-100 dark:bg-gray-900"
    ensures color in COLORS ==> c == BG_CLASSES[Rank(COLORS, color)]
  {
    match color
    case "red" => "bg-red-100 dark:bg-red-950"
    case "orange" => "bg-orange-100 dark:bg-orange-950"
    case "yellow" => "bg-yellow-100 dark:bg-yellow-950"
    case "green" => "bg-green-100 dark:bg-green-950"
    case "blue" => "bg-blue-100 dark:bg-blue-950"
    case _ => "bg-gray-100 dark:bg-gray-900"
  }

  /** No colour or class is listed twice. */
  lemma TablesUnique()
    ensures Unique(COLORS) && Unique(TEXT_CLASSES) && Unique(BG_CLASSES)
    ensures "text-gray-600 dark:text-gray-400" !in TEXT_CLASSES
  {
  }

  /** Different colours get different text classes, the fallback grey
      included. */
  lemma TextColorClassInjective(a: string, b: string)
    requires a in COLORS + ["gray"] && b in COLORS + ["gray"] && a != b
    ensures TextColorClass(a) != TextColorClass(b)
  {
    TablesUnique();
    if a in COLORS {
      RankOfEntry(COLORS, Rank(COLORS, a));
      assert TextColorClass(a) in TEXT_CLASSES;
    }
    if b in COLORS {
      RankOfEntry(COLORS, Rank(COLORS, b));
      assert TextColorClass(b) in TEXT_CLASSES;
    }
    if a in COLORS && b in COLORS {
      RankOfEntry(TEXT_CLASSES, Rank(COLORS, a));
      RankOfEntry(TEXT_CLASSES, Rank(COLORS, b));
    }
  }
}
