/** The browser's `localStorage`, as a key to value map shared by the
    components. Values are either text or (the parsed form of) a company list. */
module Storage {
  import opened Wrappers
  import opened Entities

  const RecentsKey: string := "recentSearches"
  const SelectedKey: string := "selectedCompany"

  datatype Stored = Text(text: string) | CompanyList(items: seq<Company>)

  class Store {
    var slots: map<string, Stored>

    constructor (initial: map<string, Stored>)
      ensures slots == initial
    {
      slots := initial;
    }

    /** The only value this application writes under the recents key is a list. */
    ghost predicate HoldsRecentList()
      reads this
    {
      RecentsKey in slots ==> slots[RecentsKey].CompanyList?
    }

    /** The only value this application writes under the selected-company key is text. */
    ghost predicate HoldsSelectedName()
      reads this
    {
      SelectedKey in slots ==> slots[SelectedKey].Text?
    }

    /** What this application writes under both keys. */
    ghost predicate WellTyped()
      reads this
    {
      HoldsRecentList() && HoldsSelectedName()
    }

    /** `localStorage.getItem(key)`: `null` when the key was never set. */
    function GetItem(key: string): (v: Option<Stored>)
      reads this
      ensures v.Some? <==> key in slots
      ensures v.Some? ==> v.value == slots[key]
    {
      if key in slots then Some(slots[key]) else None
    }

    /** `localStorage.setItem(key, v)`. */
    method SetItem(key: string, v: Stored)
      modifies this
      ensures slots == old(slots)[key := v]
    {
      slots := slots[key := v];
    }
  }
}
