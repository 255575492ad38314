/** Python's `str.split("\n")` and its inverse `"\n".join(...)`, on Dafny strings.

    Splitting on an explicit separator never drops pieces: a text with k newlines has
    k + 1 pieces, the empty text has the single piece `""`, and a trailing newline
    leaves an empty last piece. */
module Lines {

  const Newline: char := '\n'

  /** `"\n".join(pieces)`. */
  function Join(pieces: seq<string>): string
  {
    if |pieces| == 0 then ""
    else if |pieces| == 1 then pieces[0]
    else pieces[0] + [Newline] + Join(pieces[1..])
  }

  /** `text.split("\n")`. */
  function Split(text: string): (pieces: seq<string>)
    ensures |pieces| >= 1
    ensures forall i | 0 <= i < |pieces| :: Newline !in pieces[i]
    ensures Join(pieces) == text
  {
    if |text| == 0 then [""]
    else
      var rest := Split(text[1..]);
      if text[0] == Newline then
        assert Join([""] + rest) == "" + [Newline] + Join(rest);
        [""] + rest
      else
        var first := [text[0]] + rest[0];
        assert Join([first] + rest[1..]) == [text[0]] + Join(rest) by {
          if |rest| > 1 {
            assert ([first] + rest[1..])[1..] == rest[1..];
          }
        }
        [first] + rest[1..]
  }

  /** Splitting a text that starts with a newline-free piece `w`: `w` is glued to the
      front of the first piece of the remainder. */
  lemma {:induction false} SplitAfterPiece(w: string, text: string)
    requires Newline !in w
    ensures Split(w + text) == [w + Split(text)[0]] + Split(text)[1..]
    decreases |w|
  {
    if |w| > 0 {
      assert (w + text)[1..] == w[1..] + text;
      SplitAfterPiece(w[1..], text);
      assert [w[0]] + (w[1..] + Split(text)[0]) == w + Split(text)[0];
    } else {
      var pieces := Split(text);
      assert w + text == text;
      assert w + pieces[0] == pieces[0];
      assert pieces == [pieces[0]] + pieces[1..];
    }
  }

  /** The other half of the round trip: newline-free pieces come back unchanged from
      joining and splitting again. */
  lemma {:induction false} SplitJoin(pieces: seq<string>)
    requires |pieces| >= 1
    requires forall i | 0 <= i < |pieces| :: Newline !in pieces[i]
    ensures Split(Join(pieces)) == pieces
    decreases |pieces|
  {
    if |pieces| == 1 {
      SplitAfterPiece(pieces[0], "");
      assert pieces[0] + "" == pieces[0];
    } else {
      var tail := pieces[1..];
      SplitJoin(tail);
      var rest := [Newline] + Join(tail);
      assert Join(pieces) == pieces[0] + rest;
      SplitAfterPiece(pieces[0], rest);
      assert Split(rest) == [""] + tail;
      assert pieces[0] + "" == pieces[0];
      assert pieces == [pieces[0]] + tail;
    }
  }

  /** A text made only of newlines splits into empty pieces only. */
  lemma {:induction false} NewlinesSplitIntoEmptyPieces(text: string)
    requires forall i | 0 <= i < |text| :: text[i] == Newline
    ensures forall i | 0 <= i < |Split(text)| :: Split(text)[i] == ""
    ensures |Split(text)| == |text| + 1
    decreases |text|
  {
    if |text| > 0 {
      NewlinesSplitIntoEmptyPieces(text[1..]);
    }
  }
}
