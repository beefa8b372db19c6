/**
 * keymapc/keymapc.go: ParseKeymaps, the driver that feeds every input line to a
 * fresh gridParser and decides the error it reports.
 */
module Keymapc {
  import opened Wrappers
  import opened Keys
  import opened Parser

  /** The errors ParseKeymaps reports: ErrNotFound, or the line reader's own error. */
  datatype Error = NotFound | ReadError(msg: string)

  /** The keymaps parsing the lines ls yields. */
  function Keymaps(ls: seq<string>): seq<Keymap>
  {
    Feed(Init, ls).keymaps
  }

  /**
   * ParseKeymaps over the lines the scanner delivered (input) and the error it
   * stopped with, if any (readErr).
   */
  method ParseKeymaps(input: seq<string>, readErr: Option<string>) returns (keymaps: seq<Keymap>, err: Option<Error>)
    ensures keymaps == Keymaps(input)
    ensures readErr.Some? ==> err == Some(ReadError(readErr.value))
    ensures readErr.None? ==> (err == Some(NotFound) <==> keymaps == [])
    ensures readErr.None? && keymaps != [] ==> err == None
  {
    var p := new GridParser();
    for i := 0 to |input|
      invariant p.Model() == Feed(Init, input[..i])
    {
      assert input[..i + 1][..i] == input[..i];
      p.Line(input[i]);
    }
    assert input[..|input|] == input;
    err := if readErr.Some? then Some(ReadError(readErr.value)) else None;
    if err == None && |p.keymaps| == 0 {
      err := Some(NotFound);
    }
    keymaps := p.keymaps;
  }

  /** Every keymap ParseKeymaps returns holds keys, each at least 2x2 with an unpadded label, in scan order. */
  lemma KeymapsWellFormed(ls: seq<string>)
    ensures forall km :: km in Keymaps(ls) ==> WellFormed(km)
  {
    FeedWellFormed(Init, ls);
  }

  /** A block left open at the end of the input contributes nothing, nor does any other unclosed tail. */
  lemma UnterminatedBlock(ls: seq<string>, rest: seq<string>)
    requires forall i :: 0 <= i < |rest| ==> !Closes(rest[i])
    ensures Keymaps(ls + rest) == Keymaps(ls)
  {
    FeedAppend(Init, ls, rest);
    UnclosedAddsNothing(Feed(Init, ls), rest);
  }

  /** Reading more lines only appends keymaps, at most one per closing line. */
  lemma KeymapsExtend(ls: seq<string>, rest: seq<string>)
    ensures Keymaps(ls) <= Keymaps(ls + rest)
    ensures |Keymaps(ls + rest)| <= |Keymaps(ls)| + Closings(rest)
  {
    FeedAppend(Init, ls, rest);
    FeedKeymapsGrow(Feed(Init, ls), rest);
  }

  /** Input with no closing line yields no keymap, so ParseKeymaps reports NotFound unless the reader failed. */
  lemma NoClosingNotFound(ls: seq<string>)
    requires forall i :: 0 <= i < |ls| ==> !Closes(ls[i])
    ensures Keymaps(ls) == []
  {
    UnclosedAddsNothing(Init, ls);
  }
}
