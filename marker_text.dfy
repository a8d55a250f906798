/** The selection marker of the game-length menu and the rewrite of the menu's text
    sections that keeps the marker on the selected option only. Section 0 is the
    header and is never touched. */
module MarkerText {

  /** The marker character, U+25B6 BLACK RIGHT-POINTING TRIANGLE. */
  const Marker: char := '\U{25B6}'

  /** The string with every marker removed (a string `replace` of the marker by the
      empty string). */
  function RemoveMarker(s: string): (r: string)
    ensures Marker !in r
    ensures multiset(r) == multiset(s)[Marker := 0]
  {
    if s == [] then []
    else
      assert s == [s[0]] + s[1..];
      if s[0] == Marker then RemoveMarker(s[1..]) else [s[0]] + RemoveMarker(s[1..])
  }

  /** Removing markers keeps the other characters in their order: it distributes over
      concatenation. */
  lemma {:induction false} RemoveMarkerAppend(a: string, b: string)
    ensures RemoveMarker(a + b) == RemoveMarker(a) + RemoveMarker(b)
  {
    if a == [] {
      assert a + b == b;
    } else {
      assert (a + b)[0] == a[0];
      assert (a + b)[1..] == a[1..] + b;
      RemoveMarkerAppend(a[1..], b);
    }
  }

  /** Removing markers changes a string exactly when it holds a marker. */
  lemma {:induction false} RemoveMarkerUnchanged(s: string)
    ensures RemoveMarker(s) == s <==> Marker !in s
  {
    if s != [] {
      RemoveMarkerUnchanged(s[1..]);
      if Marker !in s {
        assert Marker !in s[1..] by {
          forall c | c in s[1..] ensures c != Marker {
            assert c in s;
          }
        }
      }
    }
  }

  /** The string with the marker put in front, unless it already holds one. */
  function EnsureMarker(s: string): (r: string)
    ensures Marker in r
    ensures Marker in s ==> r == s
    ensures Marker !in s ==> r == [Marker] + s
  {
    if Marker in s then s else [Marker] + s
  }

  /** Prefixing the marker changes nothing but markers. */
  lemma EnsureMarkerKeepsText(s: string)
    ensures RemoveMarker(EnsureMarker(s)) == RemoveMarker(s)
  {
  }

  /** The rewrite of section `i` when option `selected` is chosen: the header stays,
      the selected option gets the marker, every other option loses all of them. */
  function RefreshSection(i: nat, selected: nat, s: string): (r: string)
    ensures i == 0 ==> r == s
    ensures i != 0 && i == selected ==> Marker in r && r == EnsureMarker(s)
    ensures i != 0 && i != selected ==> Marker !in r && r == RemoveMarker(s)
    ensures RemoveMarker(r) == RemoveMarker(s)
  {
    if i == 0 then s
    else if i != selected then
      RemoveMarkerUnchanged(RemoveMarker(s));
      RemoveMarker(s)
    else
      EnsureMarkerKeepsText(s);
      EnsureMarker(s)
  }

  /** Among the options (every section but the header), the selected one holds a
      marker and no other does. */
  predicate MarkerInvariant(sections: seq<string>, selected: nat)
  {
    && (forall i :: 1 <= i < |sections| && i != selected ==> Marker !in sections[i])
    && (1 <= selected < |sections| ==> Marker in sections[selected])
  }

  /** Every section rewritten for the selected option. */
  function Refreshed(sections: seq<string>, selected: nat): (r: seq<string>)
    ensures |r| == |sections|
    ensures MarkerInvariant(r, selected)
    ensures |sections| > 0 ==> r[0] == sections[0]
    ensures forall i :: 0 <= i < |r| ==> RemoveMarker(r[i]) == RemoveMarker(sections[i])
  {
    seq(|sections|, i requires 0 <= i < |sections| => RefreshSection(i, selected, sections[i]))
  }

  /** The sections are left as they are exactly when they already keep the marker
      invariant. */
  lemma RefreshedFixedPoint(sections: seq<string>, selected: nat)
    ensures Refreshed(sections, selected) == sections <==> MarkerInvariant(sections, selected)
  {
    var r := Refreshed(sections, selected);
    if MarkerInvariant(sections, selected) {
      forall i | 0 <= i < |sections| ensures r[i] == sections[i] {
        if i != 0 && i != selected {
          RemoveMarkerUnchanged(sections[i]);
        }
      }
    }
  }

  /** Refreshing twice with the same selection gives what refreshing once gives. */
  lemma RefreshedIdempotent(sections: seq<string>, selected: nat)
    ensures Refreshed(Refreshed(sections, selected), selected) == Refreshed(sections, selected)
  {
  }
}
