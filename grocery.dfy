/** The physical heights, in metres, of the objects the guidance can look for. */
module CommonTypes {

  datatype GroceryItem = GroceryItem(name: string) {
    /** Height in metres by exact, case-sensitive name; 0 for an unknown name. */
    function Height(): (h: real)
      ensures h >= 0.0
      ensures h > 0.0 <==> name in KnownNames
    {
      match name
      case "cell phone" => 0.16
      case "bottle" => 0.30
      case "cup" => 0.10
      case "deo" => 0.14
      case "tv" => 0.33
      case "banana" => 0.21
      case "orange" => 0.095
      case "QR_CODE" => 0.12
      case _ => 0.0
    }
  }

  const KnownNames: set<string> :=
    {"cell phone", "bottle", "cup", "deo", "tv", "banana", "orange", "QR_CODE"}

  /** The height table, entry by entry. */
  lemma HeightTable()
    ensures GroceryItem("cell phone").Height() == 0.16
    ensures GroceryItem("bottle").Height() == 0.30
    ensures GroceryItem("cup").Height() == 0.10
    ensures GroceryItem("deo").Height() == 0.14
    ensures GroceryItem("tv").Height() == 0.33
    ensures GroceryItem("banana").Height() == 0.21
    ensures GroceryItem("orange").Height() == 0.095
    ensures GroceryItem("QR_CODE").Height() == 0.12
  {
  }

  /** Matching is exact: a capitalised name is unknown. */
  lemma MatchingIsCaseSensitive()
    ensures GroceryItem("Bottle").Height() == 0.0
    ensures GroceryItem("bottle ").Height() == 0.0
  {
  }
}
