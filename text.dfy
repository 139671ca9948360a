/** The string operations the typing test relies on: Python's `str.strip()`
    (with no argument) and `" ".join(...)` over a list of words. */
module Text {

  /** The characters Python's `str.isspace` accepts, which are the ones
      `str.strip()` removes from both ends of a string. */
  predicate IsSpace(c: char) {
    || ('\t' <= c <= '\r')              // tab, line feed, vertical tab, form feed, carriage return
    || ('\U{1C}' <= c <= '\U{1F}')      // file, group, record and unit separators
    || c == ' ' || c == '\U{85}' || c == '\U{A0}' || c == '\U{1680}'
    || ('\U{2000}' <= c <= '\U{200A}')  // en quad .. hair space
    || c == '\U{2028}' || c == '\U{2029}' || c == '\U{202F}' || c == '\U{205F}' || c == '\U{3000}'
  }

  /** A string that `strip()` leaves as it is: no whitespace at either end. */
  predicate Trimmed(s: string) {
    |s| == 0 || (!IsSpace(s[0]) && !IsSpace(s[|s| - 1]))
  }

  /** Where the leading whitespace of `s[i..]` ends: the first index at or
      after `i` that is not whitespace, or `|s|`. */
  function SkipSpaces(s: string, i: nat): (k: nat)
    requires i <= |s|
    ensures i <= k <= |s|
    ensures forall j :: i <= j < k ==> IsSpace(s[j])
    ensures k < |s| ==> !IsSpace(s[k])
    decreases |s| - i
  {
    if i < |s| && IsSpace(s[i]) then SkipSpaces(s, i + 1) else i
  }

  /** Where the trailing whitespace of `s[lo..hi]` begins: the smallest index
      `e` with `lo <= e <= hi` such that `s[e..hi]` is all whitespace. */
  function SkipSpacesBack(s: string, lo: nat, hi: nat): (e: nat)
    requires lo <= hi <= |s|
    ensures lo <= e <= hi
    ensures forall j :: e <= j < hi ==> IsSpace(s[j])
    ensures e > lo ==> !IsSpace(s[e - 1])
    decreases hi - lo
  {
    if hi > lo && IsSpace(s[hi - 1]) then SkipSpacesBack(s, lo, hi - 1) else hi
  }

  /** `s.strip()`: the result is trimmed, and it is the slice of `s` that
      starts where the leading whitespace ends, with only whitespace after it. */
  function Strip(s: string): (r: string)
    ensures Trimmed(r)
    ensures var p := SkipSpaces(s, 0);
            p + |r| <= |s| && r == s[p..p + |r|]
            && (forall j :: 0 <= j < p ==> IsSpace(s[j]))
            && (forall j :: p + |r| <= j < |s| ==> IsSpace(s[j]))
  {
    var p := SkipSpaces(s, 0);
    s[p..SkipSpacesBack(s, p, |s|)]
  }

  /** The converse of Strip's contract: whitespace around a trimmed word is
      exactly what `strip()` takes away, so the decomposition is unique. */
  lemma StripOfPadded(pre: string, w: string, post: string)
    requires forall j :: 0 <= j < |pre| ==> IsSpace(pre[j])
    requires forall j :: 0 <= j < |post| ==> IsSpace(post[j])
    requires Trimmed(w)
    ensures Strip(pre + w + post) == w
  {
    var s := pre + w + post;
    if |w| > 0 {
      assert s[|pre|..|pre| + |w|] == w;
    }
  }

  /** A trimmed string is its own strip. */
  lemma StripTrimmed(s: string)
    requires Trimmed(s)
    ensures Strip(s) == s
  {
    assert "" + s + "" == s;
    StripOfPadded("", s, "");
  }

  /** `" ".join(ws)`. */
  function Join(ws: seq<string>): (r: string)
  {
    if |ws| == 0 then "" else if |ws| == 1 then ws[0] else ws[0] + " " + Join(ws[1..])
  }

  /** Joining two non-empty lists is joining each and putting one space between. */
  lemma {:induction false} JoinAppend(a: seq<string>, b: seq<string>)
    requires |a| > 0 && |b| > 0
    ensures Join(a + b) == Join(a) + " " + Join(b)
  {
    if |a| == 1 {
      assert (a + b)[1..] == b;
    } else {
      assert (a + b)[1..] == a[1..] + b;
      JoinAppend(a[1..], b);
    }
  }

  function TotalLength(ws: seq<string>): nat
  {
    if |ws| == 0 then 0 else |ws[0]| + TotalLength(ws[1..])
  }

  /** The joined text holds every character of every word plus one space
      between each two neighbours. */
  lemma {:induction false} JoinLength(ws: seq<string>)
    requires |ws| > 0
    ensures |Join(ws)| == TotalLength(ws) + |ws| - 1
  {
    if |ws| > 1 {
      JoinLength(ws[1..]);
    }
  }
}
