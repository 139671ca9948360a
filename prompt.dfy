/** Prompt generation (`get_paragraph`): a paragraph of a fixed number of
    words, each chosen at random from the list of common English words.
    The random choices are supplied as `picks`, the index `random.choice`
    returned on each round. */
module Prompt {

  /** The number of words in every paragraph. */
  const ParagraphLength: nat := 180

  /** What a well-behaved random source can hand to `GetParagraph`: one
      index into the word list per word of the paragraph. */
  predicate ValidPicks(wordList: seq<string>, picks: seq<nat>) {
    |picks| == ParagraphLength && forall i :: 0 <= i < |picks| ==> picks[i] < |wordList|
  }

  /** Builds the paragraph by appending one chosen word per round. */
  method GetParagraph(wordList: seq<string>, picks: seq<nat>) returns (paragraph: seq<string>)
    requires |wordList| > 0
    requires ValidPicks(wordList, picks)
    ensures |paragraph| == ParagraphLength
    ensures forall i :: 0 <= i < |paragraph| ==> paragraph[i] in wordList
    ensures forall i :: 0 <= i < |paragraph| ==> paragraph[i] == wordList[picks[i]]
  {
    paragraph := [];
    for x := 0 to ParagraphLength
      invariant |paragraph| == x
      invariant forall i :: 0 <= i < x ==> paragraph[i] == wordList[picks[i]]
    {
      paragraph := paragraph + [wordList[picks[x]]];
    }
  }
}
