/**
 * An independent description of what the sanitising scan of ComputeJobName
 * (internal/helpers/util.go:21-42) produces: the words of the input, that is
 * its maximal runs of letters and digits, lowered, joined by single hyphens.
 */
module JobNameWords {
  import opened JobNames

  /** s ends with a character that lowers to a letter or digit. */
  predicate EndsInWord(s: string) {
    s != [] && IsLowerAlnum(Lower(s[|s| - 1]))
  }

  /**
   * The words of s: its maximal runs of letters and digits, lowered, in
   * order. Every other character only separates words.
   */
  function Words(s: string): (ws: seq<string>)
    ensures forall i :: 0 <= i < |ws| ==> ws[i] != [] && LowerAlnums(ws[i])
    ensures EndsInWord(s) ==> ws != []
  {
    if s == [] then []
    else
      var init, c := s[..|s| - 1], Lower(s[|s| - 1]);
      var ws := Words(init);
      if !IsLowerAlnum(c) then ws
      else if EndsInWord(init) then ws[..|ws| - 1] + [ws[|ws| - 1] + [c]]
      else ws + [[c]]
  }

  /** The words separated by single hyphens. */
  function Join(ws: seq<string>): string {
    if ws == [] then []
    else if |ws| == 1 then ws[0]
    else Join(ws[..|ws| - 1]) + "-" + ws[|ws| - 1]
  }

  /** Joined non-empty words are non-empty and end with the last word's last character. */
  lemma JoinEnd(ws: seq<string>)
    requires ws != [] && ws[|ws| - 1] != []
    ensures Join(ws) != [] && Join(ws)[|Join(ws)| - 1] == ws[|ws| - 1][|ws[|ws| - 1]| - 1]
  {
  }

  /** Growing the last word by one character grows the joined text by that character. */
  lemma JoinExtendLast(ws: seq<string>, c: char)
    requires ws != []
    ensures Join(ws[..|ws| - 1] + [ws[|ws| - 1] + [c]]) == Join(ws) + [c]
  {
    var ws' := ws[..|ws| - 1] + [ws[|ws| - 1] + [c]];
    assert ws'[..|ws'| - 1] == ws[..|ws| - 1];
  }

  /** Appending a word appends a hyphen and the word. */
  lemma JoinAppend(ws: seq<string>, w: string)
    requires ws != []
    ensures Join(ws + [w]) == Join(ws) + "-" + w
  {
    assert (ws + [w])[..|ws|] == ws;
  }

  /**
   * The scan writes the words of its input joined by single hyphens, plus
   * one pending hyphen when non-alphanumerics have followed the last word;
   * the flag is exactly that pending hyphen.
   */
  lemma {:induction false} ScanIsJoinedWords(s: string)
    ensures var ws := Words(s);
      var pending := ws != [] && !EndsInWord(s);
      && Scan(s).out == Join(ws) + (if pending then "-" else "")
      && Scan(s).lastHyphen == pending
    decreases |s|
  {
    if s != [] {
      var init, c := s[..|s| - 1], Lower(s[|s| - 1]);
      ScanIsJoinedWords(init);
      var ws := Words(init);
      if ws != [] {
        JoinEnd(ws);
      }
      if IsLowerAlnum(c) {
        if EndsInWord(init) {
          JoinExtendLast(ws, c);
        } else if ws != [] {
          JoinAppend(ws, [c]);
        }
      }
    }
  }

  /** Removing a trailing hyphen before trimming changes nothing. */
  lemma TrimDropsHyphen(s: string)
    ensures TrimHyphens(s + "-") == TrimHyphens(s)
  {
    assert (s + "-")[..|s|] == s;
  }

  /**
   * The sanitised main part is exactly the words of `prefix-name` joined by
   * single hyphens: one hyphen for each run of other characters between two
   * words, none before the first word or after the last.
   */
  lemma SanitizedIsJoinedWords(prefix: string, name: string)
    ensures Sanitized(prefix, name) == Join(Words(prefix + "-" + name))
  {
    var s := prefix + "-" + name;
    var ws := Words(s);
    ScanIsJoinedWords(s);
    if ws != [] {
      JoinEnd(ws);
      if !EndsInWord(s) {
        TrimDropsHyphen(Join(ws));
      }
    }
  }
}
