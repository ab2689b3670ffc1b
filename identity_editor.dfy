/** The identity editor's list edits. Both generations of the editor build
    the same one-key patch and hand it to the store's `updateIdentity`. */
module IdentityEditor {
  import opened Domain

  /** The three editable lists of the profile. */
  datatype ListKey = CoreValues | NonNegotiables | AntiIdentity

  function ListOf(p: IdentityProfile, key: ListKey): seq<string>
  {
    match key
    case CoreValues => p.coreValues
    case NonNegotiables => p.nonNegotiables
    case AntiIdentity => p.antiIdentity
  }

  /** `{ [key]: items }`: a patch that supplies one list and nothing else. */
  function PatchFor(key: ListKey, items: seq<string>): IdentityPatch
  {
    IdentityPatch(
      None,
      if key == CoreValues then Some(items) else None,
      if key == NonNegotiables then Some(items) else None,
      if key == AntiIdentity then Some(items) else None,
      None,
      None)
  }

  /** Merging a one-list patch replaces that list and leaves the vision, the
      other two lists, xp and level as they were. */
  lemma MergeListPatch(p: IdentityProfile, key: ListKey, items: seq<string>)
    ensures ListOf(MergeIdentity(p, PatchFor(key, items)), key) == items
    ensures forall other :: other != key ==> ListOf(MergeIdentity(p, PatchFor(key, items)), other) == ListOf(p, other)
    ensures var q := MergeIdentity(p, PatchFor(key, items));
      q.vision == p.vision && q.xp == p.xp && q.level == p.level
  {
  }

  /** The characters JavaScript's `String.prototype.trim` removes: the
      white-space and line-terminator code points. */
  predicate IsJsWhitespace(c: char)
  {
    var n := c as int;
    (0x09 <= n <= 0x0D) || n == 0x20 || n == 0xA0 || n == 0x1680 ||
    (0x2000 <= n <= 0x200A) || n == 0x2028 || n == 0x2029 || n == 0x202F ||
    n == 0x205F || n == 0x3000 || n == 0xFEFF
  }

  /** `s` without its leading white space. */
  function TrimStart(s: string): (r: string)
    ensures |r| <= |s| && r == s[|s| - |r|..]
    ensures forall i :: 0 <= i < |s| - |r| ==> IsJsWhitespace(s[i])
    ensures r == [] || !IsJsWhitespace(r[0])
  {
    if s != [] && IsJsWhitespace(s[0]) then TrimStart(s[1..]) else s
  }

  /** `s` without its trailing white space. */
  function TrimEnd(s: string): (r: string)
    ensures |r| <= |s| && r == s[..|r|]
    ensures forall i :: |r| <= i < |s| ==> IsJsWhitespace(s[i])
    ensures r == [] || !IsJsWhitespace(r[|r| - 1])
  {
    if s != [] && IsJsWhitespace(s[|s| - 1]) then TrimEnd(s[..|s| - 1]) else s
  }

  /** `s.trim()` */
  function Trim(s: string): string
  {
    TrimEnd(TrimStart(s))
  }

  /** A string trims to the empty string exactly when every character of it
      is white space, the empty string included. */
  lemma TrimEmptyIffBlank(s: string)
    ensures Trim(s) == [] <==> forall i :: 0 <= i < |s| ==> IsJsWhitespace(s[i])
  {
  }

  /** `addToList` / `handleAddItem`: nothing when the input trims to empty;
      otherwise the patch that appends the raw, untrimmed input. */
  function AddItem(p: IdentityProfile, key: ListKey, value: string): (patch: Option<IdentityPatch>)
    ensures patch.None? <==> forall i :: 0 <= i < |value| ==> IsJsWhitespace(value[i])
  {
    TrimEmptyIffBlank(value);
    if Trim(value) == [] then None
    else Some(PatchFor(key, ListOf(p, key) + [value]))
  }

  /** `items.filter((_, i) => i !== idx)`, walking positions from `from`. */
  function KeepAllBut(items: seq<string>, idx: int, from: nat): (r: seq<string>)
    requires from <= |items|
    ensures from <= idx < |items| ==> r == items[from..idx] + items[idx + 1..]
    ensures !(from <= idx < |items|) ==> r == items[from..]
    decreases |items| - from
  {
    if from == |items| then []
    else (if from != idx then [items[from]] else []) + KeepAllBut(items, idx, from + 1)
  }

  /** Remove by index: a valid index drops exactly that item, keeping the
      rest in order; any other index leaves the list as it was. */
  function RemoveAt(items: seq<string>, idx: int): (r: seq<string>)
    ensures 0 <= idx < |items| ==> |r| == |items| - 1
    ensures 0 <= idx < |items| ==> forall i :: 0 <= i < idx ==> r[i] == items[i]
    ensures 0 <= idx < |items| ==> forall i :: idx <= i < |r| ==> r[i] == items[i + 1]
    ensures !(0 <= idx < |items|) ==> r == items
  {
    KeepAllBut(items, idx, 0)
  }

  /** `removeFromList` / `removeItem`: the patch carrying the shortened list. */
  function RemoveItem(p: IdentityProfile, key: ListKey, idx: int): (patch: IdentityPatch)
    ensures patch.vision.None? && patch.level.None? && patch.xp.None?
    ensures patch.coreValues.Some? <==> key == CoreValues
    ensures patch.nonNegotiables.Some? <==> key == NonNegotiables
    ensures patch.antiIdentity.Some? <==> key == AntiIdentity
    ensures ListOf(MergeIdentity(p, patch), key) == RemoveAt(ListOf(p, key), idx)
    ensures 0 <= idx < |ListOf(p, key)| ==> |ListOf(MergeIdentity(p, patch), key)| == |ListOf(p, key)| - 1
  {
    PatchFor(key, RemoveAt(ListOf(p, key), idx))
  }

  /** After the store merges an accepted add, the edited list has grown by
      the raw input at its end and nothing else in the profile has changed. */
  lemma AddThenMerge(p: IdentityProfile, key: ListKey, value: string)
    requires AddItem(p, key, value).Some?
    ensures var q := MergeIdentity(p, AddItem(p, key, value).value);
      && |ListOf(q, key)| == |ListOf(p, key)| + 1
      && ListOf(q, key)[..|ListOf(p, key)|] == ListOf(p, key)
      && ListOf(q, key)[|ListOf(p, key)|] == value
      && (forall other :: other != key ==> ListOf(q, other) == ListOf(p, other))
      && q.vision == p.vision && q.xp == p.xp && q.level == p.level
  {
    MergeListPatch(p, key, ListOf(p, key) + [value]);
  }

  /** After the store merges a removal, only the edited list has changed. */
  lemma RemoveThenMerge(p: IdentityProfile, key: ListKey, idx: int)
    ensures var q := MergeIdentity(p, RemoveItem(p, key, idx));
      && ListOf(q, key) == RemoveAt(ListOf(p, key), idx)
      && (forall other :: other != key ==> ListOf(q, other) == ListOf(p, other))
      && q.vision == p.vision && q.xp == p.xp && q.level == p.level
  {
    MergeListPatch(p, key, RemoveAt(ListOf(p, key), idx));
  }

  /** Removing the item just added restores the list. */
  lemma RemoveUndoesAdd(p: IdentityProfile, key: ListKey, value: string)
    requires AddItem(p, key, value).Some?
    ensures
      var q := MergeIdentity(p, AddItem(p, key, value).value);
      var last := |ListOf(q, key)| - 1;
      MergeIdentity(q, RemoveItem(q, key, last)) == p
  {
    var items := ListOf(p, key);
    AddThenMerge(p, key, value);
    var q := MergeIdentity(p, AddItem(p, key, value).value);
    var shortened := RemoveAt(ListOf(q, key), |items|);
    assert shortened == items;
    RemoveThenMerge(q, key, |items|);
  }
}
