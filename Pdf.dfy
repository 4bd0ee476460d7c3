/** `bounded_text`: the window of extracted PDF text handed to the summariser, the first
    `head` characters and the last `tail` characters around a truncation marker. */
module Pdf {
  import opened Base
  import opened Strings

  const Marker: string := "\n\n[...TRUNCATED...]\n\n"

  lemma MarkerLength()
    ensures |Marker| == 21
  {
  }

  /** `bounded_text(text, head, tail)` as written: Python's `text[-0:]` is the whole text, so
      with `tail == 0` a truncated window ends with all of the text. */
  function BoundedText(text: string, head: int, tail: int): (r: string)
    ensures |text| <= head + tail ==> r == text
    ensures 0 <= head && 0 <= tail && |text| > head + tail ==>
      StartsWith(r, text[..head]) && |r| >= head + |Marker| && r[head..head + |Marker|] == Marker
    ensures 0 <= head && 0 < tail && |text| > head + tail ==>
      |r| == head + |Marker| + tail && EndsWith(r, text[|text| - tail..])
    ensures 0 <= head && tail == 0 && |text| > head ==>
      |r| == head + |Marker| + |text| && EndsWith(r, text)
  {
    if |text| <= head + tail then text
    else
      var front := PyPrefix(text, head);
      var back := PySuffixFrom(text, -tail);
      assert (front + Marker + back)[..|front|] == front;
      assert (front + Marker + back)[|front|..|front| + |Marker|] == Marker;
      front + Marker + back
  }

  /** A three-character text with a one-character head and no tail comes out longer than it
      went in: the "bounded" window holds the whole text. */
  lemma ZeroTailKeepsWholeText()
    ensures BoundedText("abc", 1, 0) == "a" + Marker + "abc"
    ensures |BoundedText("abc", 1, 0)| > |"abc"|
  {
    assert PyPrefix("abc", 1) == "a";
    assert PySuffixFrom("abc", 0) == "abc";
  }

  /** The window as evidently intended: no tail characters when `tail` is 0. */
  function BoundedWindow(text: string, head: int, tail: int): (r: string)
    ensures |text| <= head + tail ==> r == text
    ensures 0 <= head && 0 <= tail ==> |r| <= head + |Marker| + tail
    ensures 0 <= head && 0 <= tail && |text| > head + tail ==> StartsWith(r, text[..head])
  {
    if |text| <= head + tail then text
    else
      var front := PyPrefix(text, head);
      var back := if tail == 0 then "" else PySuffixFrom(text, -tail);
      assert (front + Marker + back)[..|front|] == front;
      front + Marker + back
  }

  /** With a tail of at least one character the two windows agree. */
  lemma BoundedWindowAgrees(text: string, head: int, tail: int)
    requires tail != 0
    ensures BoundedWindow(text, head, tail) == BoundedText(text, head, tail)
  {
  }
}
