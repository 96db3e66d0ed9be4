/** The two rules the result list applies when it shows a batch: only singles are listed,
    and each listed track carries an artist attribution phrase. */
module Display {
  import opened Search
  import opened Seqs

  /** A track is listed when its album type is exactly "single". */
  predicate IsShown(t: Track) {
    t.albumType == "single"
  }

  /** The tracks of a batch that the list shows, in catalog order. */
  function Shown(items: seq<Track>): (shown: seq<Track>)
    ensures |shown| <= |items|
    ensures forall t :: t in shown <==> t in items && IsShown(t)
    ensures forall t :: multiset(shown)[t] == (if IsShown(t) then multiset(items)[t] else 0)
  {
    if items == [] then []
    else
      assert items == [items[0]] + items[1..];
      (if IsShown(items[0]) then [items[0]] else []) + Shown(items[1..])
  }

  /** The shown tracks keep the catalog's order. */
  lemma {:induction false} ShownKeepsOrder(items: seq<Track>)
    ensures IsSubsequence(Shown(items), items)
  {
    if items != [] {
      ShownKeepsOrder(items[1..]);
      var rest := Shown(items[1..]);
      if !IsShown(items[0]) {
        assert Shown(items) == rest;
        if rest != [] {
          SubsequenceOfTail(rest, items);
        }
      } else {
        assert Shown(items) == [items[0]] + rest;
        assert ([items[0]] + rest)[1..] == rest;
      }
    }
  }

  /** A batch without singles shows nothing. */
  lemma {:induction false} NoSinglesShowsNothing(items: seq<Track>)
    requires forall i :: 0 <= i < |items| ==> !IsShown(items[i])
    ensures Shown(items) == []
  {
    if items != [] {
      NoSinglesShowsNothing(items[1..]);
    }
  }

  /** The fixed words of the attribution phrase. The proofs about the phrase's shape hold
      for any wording; `English` is the one the list renders. */
  datatype Wording = Wording(byWord: string, comma: string, andWord: string, stop: string)

  const English := Wording("by ", ", ", "and ", ".")

  /** The three span texts of the attribution: a sole artist, an artist followed by
      others, and the last of several artists. */
  function Sole(w: Wording, name: string): string { w.byWord + name + w.stop }
  function Credit(w: Wording, name: string): string { w.byWord + name + w.comma }
  function Ending(w: Wording, name: string): string { w.andWord + name + w.stop }

  /** The span rendered for the artist at position `idx` of a list of `n` artists: three
      independent conditionals, of which at most one renders. */
  function ArtistSpan(w: Wording, n: nat, idx: nat, name: string): string {
    (if n == 1 then Sole(w, name) else "")
    + (if n > 1 && idx != n - 1 then Credit(w, name) else "")
    + (if n > 1 && idx == n - 1 then Ending(w, name) else "")
  }

  /** The spans of the artists from position `i` on, concatenated. */
  function SpansFrom(w: Wording, artists: seq<string>, i: nat): string
    decreases |artists| - i
  {
    if i >= |artists| then "" else ArtistSpan(w, |artists|, i, artists[i]) + SpansFrom(w, artists, i + 1)
  }

  /** The attribution text the list renders after a track's name. */
  function Attribution(artists: seq<string>): string {
    SpansFrom(English, artists, 0)
  }

  /** "by A, " for every artist of the list. */
  function ByEach(w: Wording, artists: seq<string>): string {
    if artists == [] then "" else Credit(w, artists[0]) + ByEach(w, artists[1..])
  }

  /** The phrase as a whole: nothing for no artist, "by X." for one, and for two or more
      "by A, " for each artist but the last, then "and Z.". */
  function Phrase(w: Wording, artists: seq<string>): string {
    if |artists| == 0 then ""
    else if |artists| == 1 then Sole(w, artists[0])
    else ByEach(w, artists[..|artists| - 1]) + Ending(w, artists[|artists| - 1])
  }

  /** An artist before the last of several renders only its "by A, " span. */
  lemma MiddleSpan(w: Wording, n: nat, idx: nat, name: string)
    requires n > 1 && idx < n - 1
    ensures ArtistSpan(w, n, idx, name) == Credit(w, name)
  {
    assert Credit(w, name) + "" + "" == Credit(w, name);
  }

  /** The last of several artists renders only its "and Z." span. */
  lemma LastSpan(w: Wording, n: nat, name: string)
    requires n > 1
    ensures ArtistSpan(w, n, n - 1, name) == Ending(w, name)
  {
    assert "" + "" + Ending(w, name) == Ending(w, name);
  }

  lemma {:induction false} SpansFromTail(w: Wording, artists: seq<string>, i: nat)
    requires |artists| >= 2 && i <= |artists| - 1
    ensures SpansFrom(w, artists, i) == ByEach(w, artists[i..|artists| - 1]) + Ending(w, artists[|artists| - 1])
    decreases |artists| - i
  {
    var n := |artists|;
    var tail := Ending(w, artists[n - 1]);
    if i == n - 1 {
      LastSpan(w, n, artists[i]);
      assert SpansFrom(w, artists, n) == "";
      assert ByEach(w, artists[i..n - 1]) == "" by { assert artists[i..n - 1] == []; }
      assert tail + "" == "" + tail;
    } else {
      SpansFromTail(w, artists, i + 1);
      MiddleSpan(w, n, i, artists[i]);
      var front := artists[i..n - 1];
      assert front[0] == artists[i] && front[1..] == artists[i + 1..n - 1];
      var span := Credit(w, artists[i]);
      var rest := ByEach(w, artists[i + 1..n - 1]);
      assert (span + rest) + tail == span + (rest + tail);
    }
  }

  /** For any wording, the per-artist spans concatenate to the whole phrase. */
  lemma SpansArePhrase(w: Wording, artists: seq<string>)
    ensures SpansFrom(w, artists, 0) == Phrase(w, artists)
  {
    var n := |artists|;
    if n == 1 {
      assert SpansFrom(w, artists, 1) == "";
      assert ArtistSpan(w, 1, 0, artists[0]) == Sole(w, artists[0]);
    } else if n >= 2 {
      SpansFromTail(w, artists, 0);
      assert artists[0..n - 1] == artists[..n - 1];
    }
  }

  /** The rendered attribution is the phrase: per-artist spans and the whole-phrase
      description agree for every artist list. */
  lemma AttributionIsPhrase(artists: seq<string>)
    ensures Attribution(artists) == Phrase(English, artists)
  {
    SpansArePhrase(English, artists);
  }

  /** Two artists read "by Alice, and Bob.". */
  lemma TwoArtists()
    ensures Attribution(["Alice", "Bob"]) == "by Alice, and Bob."
  {
    AttributionIsPhrase(["Alice", "Bob"]);
    assert ["Alice", "Bob"][..1] == ["Alice"];
  }

  lemma ThreeArtistsPhrase()
    ensures Phrase(English, ["Alice", "Bob", "Cara"]) == "by Alice, by Bob, and Cara."
  {
    var front := ["Alice", "Bob"];
    assert ["Alice", "Bob", "Cara"][..2] == front;
    assert front[1..] == ["Bob"];
    assert ByEach(English, front) == "by Alice, by Bob, ";
  }

  /** Three artists read "by Alice, by Bob, and Cara.". */
  lemma ThreeArtists()
    ensures Attribution(["Alice", "Bob", "Cara"]) == "by Alice, by Bob, and Cara."
  {
    AttributionIsPhrase(["Alice", "Bob", "Cara"]);
    ThreeArtistsPhrase();
  }
}
