/** The page's record of which track uris the user has ticked: a JavaScript object from
    uri to boolean. An absent uri counts as not selected. Object keys keep their
    insertion order, so the store keeps both the flags and the order in which uris
    were first toggled. */
module Selection {
  import opened Seqs

  /** Whether `uri` is selected: a key mapped to `true`; absent or `false` is not. */
  predicate IsSelected(flags: map<string, bool>, uri: string) {
    uri in flags && flags[uri]
  }

  /** The flags after a toggle of `uri`: set to `true` when it was falsy or absent,
      otherwise to `false`. */
  function Toggled(flags: map<string, bool>, uri: string): (r: map<string, bool>)
    ensures uri in r && (IsSelected(r, uri) <==> !IsSelected(flags, uri))
    ensures r.Keys == flags.Keys + {uri}
    ensures forall k :: k != uri ==> (k in r <==> k in flags) && (k in flags ==> r[k] == flags[k])
  {
    flags[uri := !IsSelected(flags, uri)]
  }

  /** The key order after a toggle: an existing key keeps its place, a new key goes last
      (`{...selected, [uri]: v}`). */
  function ToggledOrder(order: seq<string>, uri: string): seq<string> {
    if uri in order then order else order + [uri]
  }

  /** `Object.keys(selected).filter(key => selected[key] === true)`: the selected uris, in
      key order. */
  function SelectedKeys(order: seq<string>, flags: map<string, bool>): (r: seq<string>)
    ensures forall k :: k in r <==> k in order && IsSelected(flags, k)
    ensures |r| <= |order|
    ensures IsSubsequence(r, order)
  {
    if order == [] then []
    else
      var rest := SelectedKeys(order[1..], flags);
      if IsSelected(flags, order[0]) then
        assert ([order[0]] + rest)[1..] == rest;
        [order[0]] + rest
      else
        SubsequenceOfTail(rest, order);
        rest
  }

  predicate Distinct(s: seq<string>) {
    forall i, j :: 0 <= i < j < |s| ==> s[i] != s[j]
  }

  /** The selected uris of a store with distinct keys are distinct too. */
  lemma {:induction false} SelectedKeysDistinct(order: seq<string>, flags: map<string, bool>)
    requires Distinct(order)
    ensures Distinct(SelectedKeys(order, flags))
  {
    if order != [] {
      SelectedKeysDistinct(order[1..], flags);
      var rest := SelectedKeys(order[1..], flags);
      if IsSelected(flags, order[0]) {
        assert order[0] !in order[1..];
        assert order[0] !in rest;
        var r := [order[0]] + rest;
        forall i, j | 0 <= i < j < |r| ensures r[i] != r[j] {
          if i == 0 { assert r[j] == rest[j - 1] && r[j] in rest; }
          else { assert r[i] == rest[i - 1] && r[j] == rest[j - 1]; }
        }
      }
    }
  }

  /** Toggling a uri twice restores whether it is selected, and every other key. The uri
      itself stays a key: a uri that was absent is now present as `false`. */
  lemma ToggleTwice(flags: map<string, bool>, uri: string)
    ensures IsSelected(Toggled(Toggled(flags, uri), uri), uri) == IsSelected(flags, uri)
    ensures Toggled(Toggled(flags, uri), uri) == flags[uri := IsSelected(flags, uri)]
    ensures uri !in flags ==> Toggled(Toggled(flags, uri), uri)[uri] == false
  {
  }

  /** After a toggle of `uri`, the selected uris are those selected before, with `uri`
      added if it was not selected and removed if it was. */
  lemma ToggleSelectedKeys(order: seq<string>, flags: map<string, bool>, uri: string)
    requires forall k :: k in flags <==> k in order
    ensures forall k :: k in SelectedKeys(ToggledOrder(order, uri), Toggled(flags, uri)) <==>
      (if k == uri then !IsSelected(flags, uri) else k in SelectedKeys(order, flags))
  {
  }

  /** The store itself: `selected` and its key order, as the page's state holds them. */
  class SelectionStore {
    var order: seq<string>
    var flags: map<string, bool>

    /** The keys are the uris in `order`, each once. */
    ghost predicate Valid()
      reads this
    {
      Distinct(order) && forall k :: k in flags <==> k in order
    }

    /** The page starts with nothing selected: `useState({})`. */
    constructor ()
      ensures Valid() && order == [] && flags == map[]
    {
      order := [];
      flags := map[];
    }

    /** `toggleOption(uri)`: flips `uri`, leaving every other key as it was. */
    method Toggle(uri: string)
      requires Valid()
      modifies this
      ensures Valid()
      ensures flags == Toggled(old(flags), uri)
      ensures order == ToggledOrder(old(order), uri)
      ensures IsSelected(flags, uri) <==> !IsSelected(old(flags), uri)
    {
      if uri in flags && flags[uri] {
        flags := flags[uri := false];
      } else {
        flags := flags[uri := true];
      }
      if uri !in order {
        order := order + [uri];
      }
    }

    /** `allSelected`: exactly the uris mapped to `true`, each once, in key order. */
    function AllSelected(): (r: seq<string>)
      reads this
      requires Valid()
      ensures forall k :: k in r <==> IsSelected(flags, k)
      ensures Distinct(r)
      ensures IsSubsequence(r, order)
    {
      SelectedKeysDistinct(order, flags);
      SelectedKeys(order, flags)
    }
  }
}
