/** The multi-select box's `toggleValue`: pick a value, or unpick it if it is already picked. */
module MultiSelect {
  import Lists

  /** The list handed to `onChange`: every occurrence of `val` removed if it is present, `val` appended otherwise. */
  function Toggle(value: seq<string>, val: string): seq<string>
  {
    if val in value then Lists.RemoveAll(value, val) else value + [val]
  }

  /** Membership of `val` flips and membership of every other value is unchanged. */
  lemma ToggleFlips(value: seq<string>, val: string, other: string)
    ensures val in Toggle(value, val) <==> val !in value
    ensures other != val ==> (other in Toggle(value, val) <==> other in value)
  {
  }

  /** An absent value is appended at the end, keeping the list otherwise as it was. */
  lemma ToggleAbsentAppends(value: seq<string>, val: string)
    requires val !in value
    ensures Toggle(value, val) == value + [val]
  {
  }

  /** Toggling an absent value twice restores the list. */
  lemma ToggleTwiceRestores(value: seq<string>, val: string)
    requires val !in value
    ensures Toggle(Toggle(value, val), val) == value
  {
    var once := value + [val];
    assert val in once;
    Lists.RemoveAllAppend(value, val);
  }

  /** A list without duplicates stays without duplicates. */
  lemma ToggleNoDup(value: seq<string>, val: string)
    requires Lists.NoDup(value)
    ensures Lists.NoDup(Toggle(value, val))
  {
    if val in value {
      Lists.RemoveAllNoDup(value, val);
    } else {
      Lists.AppendNoDup(value, val);
    }
  }
}
