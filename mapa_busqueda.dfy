/**
 * The property-search map: grouping listings that share exact coordinates
 * into one marker, the popup each marker shows, the zoom a click on a
 * marker asks for, and the rebuild of the marker list.
 *
 * Mapbox objects are values here: a marker is a `Marker` datatype and the
 * component's `markers` field is a sequence of them.
 */
module MapaBusqueda {
  import opened Js
  import opened Text

  // ================================================================ data

  /**
   * The `ubicacion.coordenadas.coordinates` property of a listing, each
   * entry already passed through `Number(...)`. `Missing` stands for an
   * absent link anywhere in the optional chain (a null listing included).
   */
  datatype Coordinates = Missing | NotAnArray | Entries(values: seq<JsNumber>)

  /** A property as the listing endpoint sends it (the fields the map reads). */
  datatype Listing = Listing(id: int, nombre: string, precio: int, coordenadas: Coordinates)

  /**
   * The `${lng}|${lat}` key. Number-to-string is injective on numbers other
   * than NaN (with +0 and -0 printing alike), so equal keys are equal pairs.
   */
  datatype Key = Key(lng: JsNumber, lat: JsNumber)

  /** A marker group: the shared coordinates and the listings there, in input order. */
  datatype Group = Group(coords: Key, items: seq<Listing>)

  // ================================================================ grouping: specification

  /** The key of a listing, or None when the listing is skipped. */
  function KeyOf(it: Listing): Option<Key> {
    match it.coordenadas
    case Entries(vs) =>
      if |vs| < 2 || IsNaN(vs[0]) || IsNaN(vs[1]) then None else Some(Key(vs[0], vs[1]))
    case _ => None
  }

  /**
   * The drop policy: a listing is skipped exactly when its coordinates are
   * missing, not an array, shorter than two entries, or either entry is NaN
   * (an infinite coordinate is kept); otherwise its key is its first two entries.
   */
  lemma KeyOfPolicy(it: Listing)
    ensures KeyOf(it).None? <==>
      (|| !it.coordenadas.Entries?
       || |it.coordenadas.values| < 2
       || IsNaN(it.coordenadas.values[0])
       || IsNaN(it.coordenadas.values[1]))
    ensures KeyOf(it).Some? ==>
      KeyOf(it).value == Key(it.coordenadas.values[0], it.coordenadas.values[1])
  {
  }

  /** The listings that are not skipped, in input order. */
  function Kept(items: seq<Listing>): seq<Listing> {
    if |items| == 0 then []
    else Kept(items[..|items| - 1]) + (if KeyOf(items[|items| - 1]).Some? then [items[|items| - 1]] else [])
  }

  /** The keys of the kept listings, in input order (with repetitions). */
  function KeysOf(items: seq<Listing>): seq<Key> {
    if |items| == 0 then []
    else
      var k := KeyOf(items[|items| - 1]);
      KeysOf(items[..|items| - 1]) + (if k.Some? then [k.value] else [])
  }

  /** The listings whose key is `k`, in input order. */
  function WithKey(items: seq<Listing>, k: Key): seq<Listing> {
    if |items| == 0 then []
    else WithKey(items[..|items| - 1], k) + (if KeyOf(items[|items| - 1]) == Some(k) then [items[|items| - 1]] else [])
  }

  /** Each key once, in the order of its first occurrence. */
  function Dedup(ks: seq<Key>): seq<Key> {
    if |ks| == 0 then []
    else
      var d := Dedup(ks[..|ks| - 1]);
      if ks[|ks| - 1] in d then d else d + [ks[|ks| - 1]]
  }

  function GroupKeys(gs: seq<Group>): (ks: seq<Key>)
    ensures |ks| == |gs| && forall i :: 0 <= i < |gs| ==> ks[i] == gs[i].coords
  {
    seq(|gs|, i requires 0 <= i < |gs| => gs[i].coords)
  }

  function SumSizes(gs: seq<Group>): nat {
    if |gs| == 0 then 0 else SumSizes(gs[..|gs| - 1]) + |gs[|gs| - 1].items|
  }

  predicate DistinctKeys(gs: seq<Group>) {
    forall i, j :: 0 <= i < j < |gs| ==> gs[i].coords != gs[j].coords
  }

  /** `map.has(key)`: the position of the group with key `k`, or -1. */
  function FindGroup(gs: seq<Group>, k: Key): (r: int)
    ensures -1 <= r < |gs|
    ensures r >= 0 ==> gs[r].coords == k
    ensures forall i :: 0 <= i < |gs| && (r < 0 || i < r) ==> gs[i].coords != k
  {
    if |gs| == 0 then -1
    else if gs[0].coords == k then 0
    else
      var r := FindGroup(gs[1..], k);
      if r < 0 then -1 else r + 1
  }

  /** One step of the loop: skip, push onto the existing group, or open a new one. */
  function Step(gs: seq<Group>, it: Listing): seq<Group> {
    var k := KeyOf(it);
    if k.None? then gs
    else
      var i := FindGroup(gs, k.value);
      if i < 0 then gs + [Group(k.value, [it])]
      else gs[i := gs[i].(items := gs[i].items + [it])]
  }

  /** `groupByCoordinates(items)` as a left fold over the input. */
  function Grouped(items: seq<Listing>): seq<Group> {
    if |items| == 0 then [] else Step(Grouped(items[..|items| - 1]), items[|items| - 1])
  }

  // ================================================================ grouping: properties

  lemma {:induction false} DedupMembers(ks: seq<Key>)
    ensures forall x :: x in Dedup(ks) <==> x in ks
  {
    if |ks| > 0 {
      DedupMembers(ks[..|ks| - 1]);
      assert ks == ks[..|ks| - 1] + [ks[|ks| - 1]];
    }
  }

  lemma {:induction false} WithKeyNonEmpty(items: seq<Listing>, k: Key)
    ensures WithKey(items, k) != [] <==> k in KeysOf(items)
  {
    if |items| > 0 {
      WithKeyNonEmpty(items[..|items| - 1], k);
    }
  }

  lemma {:induction false} WithKeyMembers(items: seq<Listing>, k: Key)
    ensures forall x :: x in WithKey(items, k) ==> KeyOf(x) == Some(k)
  {
    if |items| > 0 {
      WithKeyMembers(items[..|items| - 1], k);
    }
  }

  lemma {:induction false} WithKeyContains(items: seq<Listing>, x: Listing)
    requires x in items && KeyOf(x).Some?
    ensures x in WithKey(items, KeyOf(x).value)
  {
    var n := |items|;
    if items[n - 1] != x {
      assert items == items[..n - 1] + [items[n - 1]];
      WithKeyContains(items[..n - 1], x);
    }
  }

  lemma {:induction false} SumSizesUpdate(gs: seq<Group>, i: nat, g: Group)
    requires i < |gs|
    ensures SumSizes(gs[i := g]) == SumSizes(gs) - |gs[i].items| + |g.items|
  {
    if i < |gs| - 1 {
      assert gs[i := g][..|gs| - 1] == gs[..|gs| - 1][i := g];
      SumSizesUpdate(gs[..|gs| - 1], i, g);
    } else {
      assert gs[i := g][..|gs| - 1] == gs[..|gs| - 1];
    }
  }

  /** One step keeps the keys distinct, appends a new key at the end, and adds one to the total size. */
  lemma StepShape(gs: seq<Group>, it: Listing)
    requires DistinctKeys(gs)
    ensures var gs' := Step(gs, it);
      && DistinctKeys(gs')
      && GroupKeys(gs') == (if KeyOf(it).Some? && KeyOf(it).value !in GroupKeys(gs)
                            then GroupKeys(gs) + [KeyOf(it).value] else GroupKeys(gs))
      && SumSizes(gs') == SumSizes(gs) + (if KeyOf(it).Some? then 1 else 0)
  {
    var gs' := Step(gs, it);
    if KeyOf(it).Some? {
      var k := KeyOf(it).value;
      var f := FindGroup(gs, k);
      if f < 0 {
        assert gs' == gs + [Group(k, [it])];
        assert gs'[..|gs|] == gs;
        assert k !in GroupKeys(gs);
      } else {
        assert GroupKeys(gs)[f] == k;
        SumSizesUpdate(gs, f, gs[f].(items := gs[f].items + [it]));
      }
    }
  }

  /** One step keeps every group equal to the listings seen so far with its key. */
  lemma StepItems(gs: seq<Group>, seen: seq<Listing>, it: Listing)
    requires DistinctKeys(gs)
    requires forall k :: k in GroupKeys(gs) <==> k in KeysOf(seen)
    requires forall i :: 0 <= i < |gs| ==> gs[i].items == WithKey(seen, gs[i].coords)
    ensures var gs' := Step(gs, it);
      forall i :: 0 <= i < |gs'| ==> gs'[i].items == WithKey(seen + [it], gs'[i].coords)
  {
    var items := seen + [it];
    assert items[..|seen|] == seen;
    var gs' := Step(gs, it);
    forall i | 0 <= i < |gs'| ensures gs'[i].items == WithKey(items, gs'[i].coords) {
      var c := gs'[i].coords;
      if KeyOf(it) == Some(c) {
        var f := FindGroup(gs, c);
        if f < 0 {
          assert c !in GroupKeys(gs);
          WithKeyNonEmpty(seen, c);
          assert i == |gs|;
        } else {
          assert i == f;
        }
      } else {
        assert i < |gs| && gs'[i] == gs[i];
      }
    }
  }

  /**
   * The grouping invariant: keys are pairwise distinct; each group holds
   * exactly the listings with its key, in input order; the groups follow the
   * first occurrence of their keys; and the group sizes add up to the number
   * of listings that were not skipped.
   */
  lemma {:induction false} GroupedInvariant(items: seq<Listing>)
    ensures var gs := Grouped(items);
      && DistinctKeys(gs)
      && (forall i :: 0 <= i < |gs| ==> gs[i].items == WithKey(items, gs[i].coords))
      && GroupKeys(gs) == Dedup(KeysOf(items))
      && SumSizes(gs) == |Kept(items)|
  {
    if |items| > 0 {
      var init := items[..|items| - 1];
      var it := items[|items| - 1];
      assert items == init + [it];
      GroupedInvariant(init);
      var gs0 := Grouped(init);
      DedupMembers(KeysOf(init));
      StepShape(gs0, it);
      StepItems(gs0, init, it);
      assert Grouped(items) == Step(gs0, it);
      var ks := KeysOf(items);
      if KeyOf(it).Some? {
        assert ks == KeysOf(init) + [KeyOf(it).value];
        assert ks[..|ks| - 1] == KeysOf(init);
      } else {
        assert ks == KeysOf(init);
      }
    }
  }

  lemma GroupedDistinct(items: seq<Listing>)
    ensures DistinctKeys(Grouped(items))
  {
    GroupedInvariant(items);
  }

  /** No group is empty. */
  lemma GroupsNonEmpty(items: seq<Listing>)
    ensures forall g :: g in Grouped(items) ==> g.items != []
  {
    var gs := Grouped(items);
    GroupedInvariant(items);
    DedupMembers(KeysOf(items));
    forall g | g in gs ensures g.items != [] {
      var i :| 0 <= i < |gs| && gs[i] == g;
      assert GroupKeys(gs)[i] == g.coords;
      WithKeyNonEmpty(items, g.coords);
    }
  }

  /** Two grouped listings share a group exactly when their keys are equal. */
  lemma SameGroupIffSameKey(items: seq<Listing>, i: int, j: int, x: Listing, y: Listing)
    requires 0 <= i < |Grouped(items)| && 0 <= j < |Grouped(items)|
    requires x in Grouped(items)[i].items && y in Grouped(items)[j].items
    ensures i == j <==> KeyOf(x) == KeyOf(y)
  {
    var gs := Grouped(items);
    GroupedInvariant(items);
    WithKeyMembers(items, gs[i].coords);
    WithKeyMembers(items, gs[j].coords);
  }

  /** A kept listing lands in a group: the one with its key. */
  lemma KeptListingHasGroup(items: seq<Listing>, x: Listing)
    requires x in items && KeyOf(x).Some?
    ensures var gs := Grouped(items);
      exists i :: 0 <= i < |gs| && gs[i].coords == KeyOf(x).value && x in gs[i].items
  {
    var k := KeyOf(x).value;
    var gs := Grouped(items);
    GroupedInvariant(items);
    WithKeyContains(items, x);
    WithKeyNonEmpty(items, k);
    DedupMembers(KeysOf(items));
    assert k in GroupKeys(gs);
    var i :| 0 <= i < |gs| && GroupKeys(gs)[i] == k;
    assert x in gs[i].items;
  }

  // ================================================================ grouping: the loop

  /**
   * `groupByCoordinates(items)`: one pass over the listings, filling a map
   * from key to group and pushing onto the group's item list in place.
   */
  /** The key-to-position map of the loop agrees with `FindGroup`. */
  lemma FindGroupByIndex(groups: seq<Group>, byKey: map<Key, nat>, key: Key)
    requires DistinctKeys(groups)
    requires forall k :: k in byKey ==> byKey[k] < |groups| && groups[byKey[k]].coords == k
    requires forall i :: 0 <= i < |groups| ==> groups[i].coords in byKey
    ensures key in byKey ==> FindGroup(groups, key) == byKey[key]
    ensures key !in byKey ==> FindGroup(groups, key) < 0
  {
  }

  method GroupByCoordinates(items: seq<Listing>) returns (groups: seq<Group>)
    ensures groups == Grouped(items)
  {
    var byKey: map<Key, nat> := map[];
    groups := [];
    for n := 0 to |items|
      invariant groups == Grouped(items[..n])
      invariant forall k :: k in byKey ==> byKey[k] < |groups| && groups[byKey[k]].coords == k
      invariant forall i :: 0 <= i < |groups| ==> groups[i].coords in byKey
    {
      var it := items[n];
      assert items[..n + 1] == items[..n] + [it];
      assert Grouped(items[..n + 1]) == Step(groups, it);
      if !it.coordenadas.Entries? || |it.coordenadas.values| < 2 {
        continue;
      }
      var lng := it.coordenadas.values[0];
      var lat := it.coordenadas.values[1];
      if IsNaN(lng) || IsNaN(lat) {
        continue;
      }
      var key := Key(lng, lat);
      assert KeyOf(it) == Some(key);
      GroupedDistinct(items[..n]);
      FindGroupByIndex(groups, byKey, key);
      if key !in byKey {
        byKey := byKey[key := |groups|];
        groups := groups + [Group(key, [it])];
      } else {
        var g := byKey[key];
        groups := groups[g := groups[g].(items := groups[g].items + [it])];
      }
    }
    assert items[..|items|] == items;
  }

  // ================================================================ popup

  const MaxShow: nat := 8

  function EscapeChar(c: char): string {
    if c == '&' then "&amp;"
    else if c == '<' then "&lt;"
    else if c == '>' then "&gt;"
    else if c == '"' then "&quot;"
    else if c == '\'' then "&#39;"
    else [c]
  }

  predicate IsMarkupChar(c: char) {
    c == '&' || c == '<' || c == '>' || c == '"' || c == '\''
  }

  /** `escapeHtml(s)`: each of the five markup characters becomes its entity. */
  function EscapeHtml(s: string): (r: string)
    ensures '<' !in r && '>' !in r && '"' !in r && '\'' !in r
    ensures (forall i :: 0 <= i < |s| ==> !IsMarkupChar(s[i])) ==> r == s
  {
    if |s| == 0 then "" else EscapeChar(s[0]) + EscapeHtml(s[1..])
  }

  /** The text starts with one of the five entities `escapeHtml` produces. */
  predicate StartsWithEntity(t: string) {
    StartsWith(t, "&amp;") || StartsWith(t, "&lt;") || StartsWith(t, "&gt;")
    || StartsWith(t, "&quot;") || StartsWith(t, "&#39;")
  }

  /** Decoding the five entities; the inverse of `EscapeHtml`. */
  function UnescapeHtml(s: string): string
    decreases |s|
  {
    if |s| == 0 then ""
    else if s[0] != '&' then [s[0]] + UnescapeHtml(s[1..])
    else if StartsWith(s, "&amp;") then "&" + UnescapeHtml(s[5..])
    else if StartsWith(s, "&lt;") then "<" + UnescapeHtml(s[4..])
    else if StartsWith(s, "&gt;") then ">" + UnescapeHtml(s[4..])
    else if StartsWith(s, "&quot;") then "\"" + UnescapeHtml(s[6..])
    else if StartsWith(s, "&#39;") then "'" + UnescapeHtml(s[5..])
    else "&" + UnescapeHtml(s[1..])
  }

  /** Decoding the escape of one character gives back that character. */
  lemma UnescapeEscapeChar(c: char, rest: string)
    ensures UnescapeHtml(EscapeChar(c) + rest) == [c] + UnescapeHtml(rest)
  {
    var e := EscapeChar(c);
    var r := e + rest;
    assert r[..|e|] == e && r[|e|..] == rest;
    if !IsMarkupChar(c) {
      assert r[0] == c;
    } else if c == '&' {
      assert StartsWith(r, "&amp;");
    } else if c == '<' {
      assert r[1] == 'l';
      assert !StartsWith(r, "&amp;");
      assert StartsWith(r, "&lt;");
    } else if c == '>' {
      assert r[1] == 'g';
      assert !StartsWith(r, "&amp;") && !StartsWith(r, "&lt;");
      assert StartsWith(r, "&gt;");
    } else if c == '"' {
      assert r[1] == 'q';
      assert !StartsWith(r, "&amp;") && !StartsWith(r, "&lt;") && !StartsWith(r, "&gt;");
      assert StartsWith(r, "&quot;");
    } else {
      assert r[1] == '#';
      assert !StartsWith(r, "&amp;") && !StartsWith(r, "&lt;") && !StartsWith(r, "&gt;");
      assert !StartsWith(r, "&quot;");
      assert StartsWith(r, "&#39;");
    }
  }

  /** Inside one escaped character, an ampersand can only be the one opening its entity. */
  lemma EscapeCharEntity(c: char, rest: string)
    ensures var r := EscapeChar(c) + rest;
      forall i :: 0 <= i < |EscapeChar(c)| && r[i] == '&' ==> StartsWithEntity(r[i..])
  {
    var e := EscapeChar(c);
    var r := e + rest;
    assert r[..|e|] == e;
    assert r[0..] == r;
    if c == '&' {
      assert StartsWith(r, "&amp;");
      assert forall i :: 1 <= i < |e| ==> e[i] != '&';
    } else if c == '<' {
      assert StartsWith(r, "&lt;");
      assert forall i :: 1 <= i < |e| ==> e[i] != '&';
    } else if c == '>' {
      assert StartsWith(r, "&gt;");
      assert forall i :: 1 <= i < |e| ==> e[i] != '&';
    } else if c == '"' {
      assert StartsWith(r, "&quot;");
      assert forall i :: 1 <= i < |e| ==> e[i] != '&';
    } else if c == '\'' {
      assert StartsWith(r, "&#39;");
      assert forall i :: 1 <= i < |e| ==> e[i] != '&';
    }
  }

  /** Every ampersand of the text opens one of the five entities. */
  predicate AmpersandsOpenEntities(t: string) {
    forall i :: 0 <= i < |t| && t[i] == '&' ==> StartsWithEntity(t[i..])
  }

  /** Every ampersand of the escaped text opens one of the five entities. */
  lemma {:induction false} EscapedAmpersandsAreEntities(s: string)
    ensures AmpersandsOpenEntities(EscapeHtml(s))
  {
    if |s| > 0 {
      EscapedAmpersandsAreEntities(s[1..]);
      var e := EscapeChar(s[0]);
      var rest := EscapeHtml(s[1..]);
      var r := e + rest;
      EscapeCharEntity(s[0], rest);
      forall i | |e| <= i < |r| && r[i] == '&' ensures StartsWithEntity(r[i..]) {
        var j := i - |e|;
        assert r[i..] == rest[j..];
        assert 0 <= j < |rest| && rest[j] == '&';
      }
    }
  }

  /** Unescaping the escaped text gives back the original text. */
  lemma {:induction false} UnescapeEscape(s: string)
    ensures UnescapeHtml(EscapeHtml(s)) == s
  {
    if |s| > 0 {
      UnescapeEscape(s[1..]);
      UnescapeEscapeChar(s[0], EscapeHtml(s[1..]));
      assert [s[0]] + s[1..] == s;
    }
  }

  /** One line of the popup list; the price is left for `formatMoney`. */
  datatype PopupEntry = PopupEntry(id: int, title: string, precio: int)

  /** The popup: its list entries and the optional "+N más" line. */
  datatype Popup = Popup(entries: seq<PopupEntry>, more: Option<string>)

  function EntryFor(p: Listing, defaultName: string): PopupEntry {
    PopupEntry(p.id, EscapeHtml(if p.nombre != "" then p.nombre else defaultName), p.precio)
  }

  function MoreLine(hidden: nat): string {
    "+" + NatToString(hidden) + " más en esta ubicación"
  }

  /** `buildPopupHTML(items)` */
  function BuildPopup(items: seq<Listing>): (p: Popup)
    ensures |items| == 1 ==> p.entries == [EntryFor(items[0], "Departamento")] && p.more == None
    ensures |items| != 1 ==> |p.entries| == (if |items| < MaxShow then |items| else MaxShow)
    ensures |items| != 1 ==> forall i :: 0 <= i < |p.entries| ==> p.entries[i] == EntryFor(items[i], "Depto")
    ensures p.more.Some? <==> |items| > MaxShow
    ensures p.more.Some? ==> p.more.value == MoreLine(|items| - MaxShow)
  {
    if |items| == 1 then
      Popup([EntryFor(items[0], "Departamento")], None)
    else
      var shown := if |items| < MaxShow then |items| else MaxShow;
      Popup(seq(shown, i requires 0 <= i < shown => EntryFor(items[i], "Depto")),
            if |items| > MaxShow then Some(MoreLine(|items| - MaxShow)) else None)
  }

  /** Every popup title decodes to the listing's name, or to the default name. */
  lemma PopupTitlesDecode(items: seq<Listing>, i: nat)
    requires i < |BuildPopup(items).entries|
    ensures var name := if |items| == 1 then "Departamento" else "Depto";
      UnescapeHtml(BuildPopup(items).entries[i].title)
        == (if items[i].nombre != "" then items[i].nombre else name)
  {
    var p := BuildPopup(items);
    var name := if |items| == 1 then "Departamento" else "Depto";
    var e := EntryFor(items[i], name);
    assert p.entries[i] == e;
    UnescapeEscape(if items[i].nombre != "" then items[i].nombre else name);
  }

  /** The "+N" count in the extra line reads back as the number of hidden listings. */
  lemma MoreLineCount(items: seq<Listing>)
    requires |items| > MaxShow
    ensures var line := BuildPopup(items).more.value;
      var digits := NatToString(|items| - MaxShow);
      line[1..1 + |digits|] == digits && DigitsValue(digits) == |items| - MaxShow
  {
    DigitsValueOfNatToString(|items| - MaxShow);
  }

  // ================================================================ click zoom

  function Max(a: real, b: real): real { if a >= b then a else b }
  function Min(a: real, b: real): real { if a <= b then a else b }

  /** The zoom a click on a marker of `count` listings eases to from `current`. */
  function ClickZoom(count: nat, current: real): (z: real)
    ensures z <= 18.0
    ensures count > 1 ==> z >= 14.0
    ensures count <= 1 ==> z >= 13.0
    ensures current <= 18.0 ==> z >= current
    ensures count > 1 && current <= 16.0 ==> z == Max(current + 2.0, 14.0)
    ensures count <= 1 && current <= 17.0 ==> z == Max(current + 1.0, 13.0)
    ensures count > 1 && current >= 16.0 ==> z == 18.0
    ensures count <= 1 && current >= 17.0 ==> z == 18.0
  {
    var desired := if count > 1 then Max(current + 2.0, 14.0) else Max(current + 1.0, 13.0);
    Min(desired, 18.0)
  }

  // ================================================================ markers

  /** A Mapbox marker for a group: position, badge, tooltip and popup. */
  datatype Marker = Marker(coords: Key, count: nat, badge: bool, title: Option<string>, popup: Popup)

  function MarkerFor(g: Group): (m: Marker)
    ensures m.coords == g.coords && m.count == |g.items|
    ensures m.badge <==> |g.items| > 1
    ensures m.title.Some? <==> |g.items| > 1
    ensures |g.items| > 1 ==> m.title == Some(NatToString(|g.items|) + " propiedades en esta ubicación")
    ensures m.popup == BuildPopup(g.items)
  {
    var count := |g.items|;
    Marker(g.coords, count, count > 1,
           if count > 1 then Some(NatToString(count) + " propiedades en esta ubicación") else None,
           BuildPopup(g.items))
  }

  function MarkersFor(gs: seq<Group>): (ms: seq<Marker>)
    ensures |ms| == |gs| && forall i :: 0 <= i < |gs| ==> ms[i] == MarkerFor(gs[i])
  {
    seq(|gs|, i requires 0 <= i < |gs| => MarkerFor(gs[i]))
  }

  /** The map component: its input listings and the markers it has placed. */
  class MapaBusquedaComponent {
    var propiedades: seq<Listing>
    var mapCreated: bool
    var isMapLoading: bool
    var isDataLoading: bool
    var markers: seq<Marker>
    /** The coordinates of the last `fitBounds` request, if any. */
    var fittedBounds: Option<seq<Key>>

    constructor ()
      ensures propiedades == [] && markers == [] && !mapCreated
      ensures isMapLoading && !isDataLoading && fittedBounds == None
    {
      propiedades := [];
      mapCreated := false;
      isMapLoading := true;
      isDataLoading := false;
      markers := [];
      fittedBounds := None;
    }

    /** `ngOnInit`: the map object exists from here on. */
    method Init()
      modifies this
      ensures mapCreated && isMapLoading
      ensures propiedades == old(propiedades) && markers == old(markers)
      ensures isDataLoading == old(isDataLoading) && fittedBounds == old(fittedBounds)
    {
      isMapLoading := true;
      mapCreated := true;
    }

    /** The map's 'load' event: markers are rendered and the map loader clears. */
    method OnLoad()
      requires mapCreated
      modifies this
      ensures !isMapLoading && mapCreated && propiedades == old(propiedades)
      ensures markers == MarkersFor(Grouped(propiedades))
      ensures Grouped(propiedades) == [] ==> !isDataLoading && fittedBounds == old(fittedBounds)
      ensures Grouped(propiedades) != [] ==> isDataLoading && fittedBounds == Some(GroupKeys(Grouped(propiedades)))
    {
      RenderMarkers();
      isMapLoading := false;
    }

    /** `ngOnChanges` with a new `propiedades` input. */
    method OnChanges(nuevas: seq<Listing>)
      modifies this
      ensures propiedades == nuevas && mapCreated == old(mapCreated)
      ensures isMapLoading == old(isMapLoading)
      ensures mapCreated ==> markers == MarkersFor(Grouped(nuevas))
      ensures mapCreated && Grouped(nuevas) == [] ==> !isDataLoading && fittedBounds == old(fittedBounds)
      ensures mapCreated && Grouped(nuevas) != [] ==> isDataLoading && fittedBounds == Some(GroupKeys(Grouped(nuevas)))
      ensures !mapCreated ==>
        markers == old(markers) && fittedBounds == old(fittedBounds) && isDataLoading == old(isDataLoading)
    {
      propiedades := nuevas;
      if !mapCreated {
        return;
      }
      RenderMarkers();
    }

    /** The timer `renderMarkers` starts: the data loader clears, nothing else changes. */
    method OnFinCarga()
      modifies this
      ensures !isDataLoading
      ensures propiedades == old(propiedades) && markers == old(markers) && fittedBounds == old(fittedBounds)
      ensures mapCreated == old(mapCreated) && isMapLoading == old(isMapLoading)
    {
      isDataLoading := false;
    }

    /**
     * `renderMarkers`: every previous marker is removed, then one marker per
     * group is added; the view is fitted to the markers when there is one.
     */
    method RenderMarkers()
      modifies this
      ensures propiedades == old(propiedades) && mapCreated == old(mapCreated)
      ensures isMapLoading == old(isMapLoading)
      ensures !mapCreated ==>
        markers == old(markers) && fittedBounds == old(fittedBounds) && isDataLoading == old(isDataLoading)
      ensures mapCreated ==> markers == MarkersFor(Grouped(propiedades))
      ensures mapCreated && Grouped(propiedades) == [] ==> !isDataLoading && fittedBounds == old(fittedBounds)
      ensures mapCreated && Grouped(propiedades) != [] ==>
        isDataLoading && fittedBounds == Some(GroupKeys(Grouped(propiedades)))
    {
      if !mapCreated {
        return;
      }
      isDataLoading := true;
      markers := [];
      var groups := GroupByCoordinates(propiedades);
      if |groups| == 0 {
        isDataLoading := false;
        return;
      }
      var placed: seq<Marker> := [];
      var bounds: seq<Key> := [];
      for n := 0 to |groups|
        invariant placed == MarkersFor(groups[..n])
        invariant bounds == GroupKeys(groups[..n])
      {
        placed := placed + [MarkerFor(groups[n])];
        bounds := bounds + [groups[n].coords];
      }
      assert groups[..|groups|] == groups;
      markers := placed;
      fittedBounds := Some(bounds);
    }
  }
}
