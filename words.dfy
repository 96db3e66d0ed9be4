/** The tokenizer of the word form: the text typed into the "words" box becomes the
    list of queries that are each sent to the catalog search. */
module Words {
  import opened Js

  /** The trimmed form of every piece, in the same order. */
  function TrimEach(pieces: seq<string>): (tokens: seq<string>)
    ensures |tokens| == |pieces|
    ensures forall i :: 0 <= i < |pieces| ==> tokens[i] == Trim(pieces[i])
  {
    if pieces == [] then [] else [Trim(pieces[0])] + TrimEach(pieces[1..])
  }

  /** The queries a submission of `input` searches for: none for an empty input,
      otherwise every comma-separated piece, trimmed, empty pieces included. */
  function Tokenize(input: string): (tokens: seq<string>)
    ensures input == [] <==> tokens == []
  {
    if |input| == 0 then [] else TrimEach(Split(input, ','))
  }

  /** A non-empty input with k commas yields k + 1 queries; none of them holds a comma
      or starts or ends with whitespace. */
  lemma TokenCount(input: string)
    requires input != []
    ensures |Tokenize(input)| == Count(input, ',') + 1
    ensures forall i :: 0 <= i < |Tokenize(input)| ==>
      var t := Tokenize(input)[i];
      ',' !in t && (t == [] || (!IsWhitespace(t[0]) && !IsWhitespace(t[|t| - 1])))
  {
  }

  /** The queries are the pieces of the input between commas, trimmed, in input order:
      an input written as the comma-join of comma-free pieces tokenizes to exactly
      those pieces trimmed. */
  lemma TokenizeJoined(pieces: seq<string>)
    requires pieces != []
    requires forall i :: 0 <= i < |pieces| ==> ',' !in pieces[i]
    requires Join(pieces, ',') != []
    ensures Tokenize(Join(pieces, ',')) == TrimEach(pieces)
  {
    SplitJoin(pieces, ',');
  }

  /** A non-empty input made only of whitespace searches once, for the empty string. */
  lemma {:induction false} WhitespaceOnlyInput(input: string)
    requires input != [] && AllWhitespace(input)
    ensures Tokenize(input) == [""]
  {
    NoCommaInWhitespace(input);
    assert Count(input, ',') == 0;
    assert |Split(input, ',')| == 1;
    JoinSplit(input, ',');
    assert Split(input, ',') == [input];
  }

  lemma {:induction false} NoCommaInWhitespace(s: string)
    requires AllWhitespace(s)
    ensures Count(s, ',') == 0
  {
    if s != [] {
      assert s[0] != ',';
      NoCommaInWhitespace(s[1..]);
    }
  }

  /** Trimming a two-piece list is trimming each piece. */
  lemma TrimEachPair(a: string, b: string, ta: string, tb: string)
    requires Trim(a) == ta && Trim(b) == tb
    ensures TrimEach([a, b]) == [ta, tb]
  {
    assert [a, b][1..] == [b];
  }

  lemma SunMoonPieces()
    ensures Tokenize("sun, moon") == TrimEach(["sun", " moon"])
  {
    var pieces := ["sun", " moon"];
    assert Join(pieces, ',') == "sun, moon";
    TokenizeJoined(pieces);
  }

  lemma TrimmedSun()
    ensures Trim("sun") == "sun"
  {
    TrimRemovesSurroundingWhitespace("", "sun", "");
    assert "" + "sun" + "" == "sun";
  }

  lemma TrimmedMoon()
    ensures Trim(" moon") == "moon"
  {
    TrimRemovesSurroundingWhitespace(" ", "moon", "");
    assert " " + "moon" + "" == " moon";
  }

  /** "sun, moon" searches for "sun" and then for "moon". */
  lemma SunMoon()
    ensures Tokenize("sun, moon") == ["sun", "moon"]
  {
    SunMoonPieces();
    TrimmedSun();
    TrimmedMoon();
    TrimEachPair("sun", " moon", "sun", "moon");
  }
}
