/** What the prompt widget shows: the paragraph text and the range of
    character offsets painted red (the highlighted current word). Offsets
    are column numbers on line 1 of the text widget, since the paragraph is
    one line. */
module Display {
  import opened Text

  /** The widget's text and the half-open range `[tagStart, tagEnd)` of the
      red tag. */
  datatype Layout = Layout(text: string, tagStart: nat, tagEnd: nat)

  /** The layout installed when a paragraph is first shown (at start-up and
      on reset): the joined paragraph, with the first `len(words[0].strip())`
      characters tagged. */
  function InitialLayout(words: seq<string>): (r: Layout)
    requires |words| > 0
    ensures r.tagStart == 0 && r.tagEnd <= |words[0]| && r.tagEnd <= |r.text|
    ensures r.text[..r.tagEnd] == words[0][..r.tagEnd]
    ensures Trimmed(words[0]) ==> r.text[r.tagStart..r.tagEnd] == words[0]
  {
    var stripped := Strip(words[0]);
    JoinStartsWithFirst(words);
    Layout(Join(words), 0, |stripped|)
  }

  lemma JoinStartsWithFirst(words: seq<string>)
    requires |words| > 0
    ensures |words[0]| <= |Join(words)| && Join(words)[..|words[0]|] == words[0]
  {
    if |words| > 1 {
      assert Join(words) == words[0] + (" " + Join(words[1..]));
    }
  }

  /** `move_cursor(num)`: the text is rebuilt as the words before `num`, a
      space, the stripped current word, a space and the words after `num`;
      the tag starts at the length of the first part and ends one character
      past the current word. */
  function MoveCursor(words: seq<string>, num: nat): Layout
    requires num < |words|
  {
    var currentWord := Strip(words[num]);
    var start := Join(words[..num]);
    var end := Join(words[num + 1..]);
    var y := |currentWord|;
    var z := |start|;
    Layout(start + (" " + currentWord) + (" " + end), z, z + y + 1)
  }

  /** The tag set by `move_cursor` covers exactly the space before the
      current word and the (stripped) word itself; before it stand the
      words already typed, after it a space and the words still to come. */
  lemma MoveCursorTagsCurrentWord(words: seq<string>, num: nat)
    requires num < |words|
    ensures var r := MoveCursor(words, num);
            && r.tagStart <= r.tagEnd <= |r.text|
            && r.text[r.tagStart..r.tagEnd] == " " + Strip(words[num])
            && r.text[..r.tagStart] == Join(words[..num])
            && r.text[r.tagEnd..] == " " + Join(words[num + 1..])
  {
  }

  /** For a paragraph of trimmed words, moving the cursor to a word other
      than the first leaves the joined paragraph in place (with one extra
      space at the end when the cursor is on the last word) and the tag
      starts at the separator before that word. */
  lemma MoveCursorKeepsParagraph(words: seq<string>, num: nat)
    requires 0 < num < |words|
    requires Trimmed(words[num])
    ensures num < |words| - 1 ==> MoveCursor(words, num).text == Join(words)
    ensures num == |words| - 1 ==> MoveCursor(words, num).text == Join(words) + " "
    ensures MoveCursor(words, num).tagStart == |Join(words[..num])|
  {
    StripTrimmed(words[num]);
    var x, y, z := Join(words[..num]), words[num], Join(words[num + 1..]);
    assert MoveCursor(words, num).text == x + (" " + y) + (" " + z);
    if num == |words| - 1 {
      JoinLast(words);
      assert words[num + 1..] == [];
      assert x + (" " + y) + (" " + z) == x + " " + y + " ";
    } else {
      JoinAround(words, num);
    }
  }

  /** The joined paragraph, split at the space before word `num`. */
  lemma JoinSplit(words: seq<string>, num: nat)
    requires 0 < num < |words|
    ensures Join(words) == Join(words[..num]) + " " + Join(words[num..])
  {
    var pre, rest := words[..num], words[num..];
    JoinAppend(pre, rest);
    assert pre + rest == words;
  }

  lemma JoinLast(words: seq<string>)
    requires 1 < |words|
    ensures Join(words) == Join(words[..|words| - 1]) + " " + words[|words| - 1]
  {
    JoinSplit(words, |words| - 1);
    assert words[|words| - 1..] == [words[|words| - 1]];
  }

  lemma JoinAround(words: seq<string>, num: nat)
    requires 0 < num < |words| - 1
    ensures Join(words) == Join(words[..num]) + (" " + words[num]) + (" " + Join(words[num + 1..]))
  {
    JoinSplit(words, num);
    var rest := words[num..];
    assert rest[1..] == words[num + 1..];
    assert Join(rest) == words[num] + " " + Join(words[num + 1..]);
    Regroup(Join(words[..num]), words[num], Join(words[num + 1..]));
  }

  lemma Regroup(x: string, y: string, z: string)
    ensures x + " " + (y + " " + z) == x + (" " + y) + (" " + z)
  {
  }
}
