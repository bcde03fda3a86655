/** The category icon lookup of the browser script (`getCategoryEmoji`): a table
    of name fragments, searched in table order against the lower-cased category
    name; the first fragment that occurs decides the icon. */
module CategoryEmoji {
  import opened Common

  /** The fragment table, in the order the script declares it. */
  const EmojiTable: seq<(string, string)> := [
    ("стекол", "\U{1FA9F}"),
    ("окон", "\U{1FA9F}"),
    ("зеркал", "\U{1FA9F}"),
    ("пыли", "\U{1F4A8}"),
    ("кухни", "\U{1F37D}\U{FE0F}"),
    ("посуды", "\U{1F944}"),
    ("автомобиля", "\U{1F697}"),
    ("ванной", "\U{1F6C1}"),
    ("лица", "\U{1F9FC}"),
    ("пола", "\U{1F9FD}"),
    ("полотенца", "\U{1F9D6}"),
    ("спорта", "\U{1F3C3}"),
    ("подарки", "\U{1F381}")
  ]

  /** The icon for names that match no fragment. */
  const DefaultEmoji: string := "\U{1F4E6}"

  /** Search of `table` from entry `from` on, as the `for ... of` loop with its
      early return does. */
  function FirstMatch(table: seq<(string, string)>, name: string, from: nat): (r: string)
    requires from <= |table|
    ensures (forall j :: from <= j < |table| ==> !Contains(name, table[j].0)) ==> r == DefaultEmoji
    ensures forall k ::
              (from <= k < |table| && Contains(name, table[k].0) &&
               forall j :: from <= j < k ==> !Contains(name, table[j].0))
              ==> r == table[k].1
    decreases |table| - from
  {
    if from == |table| then DefaultEmoji
    else if Contains(name, table[from].0) then table[from].1
    else FirstMatch(table, name, from + 1)
  }

  /** The icon of the first table entry, in table order, whose fragment occurs in
      the lower-cased name; the parcel icon when none occurs. */
  function GetCategoryEmoji(categoryName: string): (r: string)
    ensures forall k ::
              (0 <= k < |EmojiTable| && Contains(Lower(categoryName), EmojiTable[k].0) &&
               forall j :: 0 <= j < k ==> !Contains(Lower(categoryName), EmojiTable[j].0))
              ==> r == EmojiTable[k].1
    ensures (forall j :: 0 <= j < |EmojiTable| ==> !Contains(Lower(categoryName), EmojiTable[j].0)) ==>
              r == DefaultEmoji
  {
    FirstMatch(EmojiTable, Lower(categoryName), 0)
  }

  /** Every icon the lookup returns comes from the table or is the default. */
  lemma EmojiFromTable(categoryName: string)
    ensures GetCategoryEmoji(categoryName) == DefaultEmoji ||
            exists k :: 0 <= k < |EmojiTable| && GetCategoryEmoji(categoryName) == EmojiTable[k].1
  {
    var name := Lower(categoryName);
    if k :| 0 <= k < |EmojiTable| && Contains(name, EmojiTable[k].0) {
      var least := LeastMatch(name, k);
      assert GetCategoryEmoji(categoryName) == EmojiTable[least].1;
    }
  }

  lemma {:induction false} LeastMatch(name: string, k: nat) returns (least: nat)
    requires k < |EmojiTable| && Contains(name, EmojiTable[k].0)
    ensures least <= k && Contains(name, EmojiTable[least].0)
    ensures forall j :: 0 <= j < least ==> !Contains(name, EmojiTable[j].0)
    decreases k
  {
    if j :| 0 <= j < k && Contains(name, EmojiTable[j].0) {
      least := LeastMatch(name, j);
    } else {
      least := k;
    }
  }

  /** The kitchen category of the catalog gets the plate icon. */
  lemma KitchenCategory()
    ensures GetCategoryEmoji("Кухни") == "\U{1F37D}\U{FE0F}"
  {
    var name := Lower("Кухни");
    assert name == "кухни";
    assert IsPrefix("кухни", name);
    NotIn(name, 4);
  }

  /** None of the first `n` fragments occurs in "кухни". */
  lemma NotIn(name: string, n: nat)
    requires name == "кухни" && n <= 4
    ensures forall j :: 0 <= j < n ==> !Contains(name, EmojiTable[j].0)
  {
    forall j | 0 <= j < n ensures !Contains(name, EmojiTable[j].0) {
      ContainsIff(name, EmojiTable[j].0);
      if j == 1 || j == 3 {
        // "кухни" has neither 'о' nor 'п', the first letters of "окон" and "пыли"
        var frag := EmojiTable[j].0;
        forall i | 0 <= i ensures !OccursAt(name, frag, i) {
          if i + |frag| <= |name| {
            assert name[i..i + |frag|][0] == name[i];
            assert name[i] != frag[0];
          }
        }
      }
    }
  }
}
