/** The interactive loop's exit test. */
module Session {

  /** A line that ends the session. */
  predicate IsQuit(line: string) {
    line in {"q", "Q"}
  }

  /** Exactly the one-letter lines `q` and `Q` quit; every other line, the empty one included, is a user turn. */
  lemma QuitIsSingleLetter(line: string)
    ensures IsQuit(line) <==> |line| == 1 && (line[0] == 'q' || line[0] == 'Q')
  {
    if |line| == 1 {
      assert line == [line[0]];
    }
  }
}
