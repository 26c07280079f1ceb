/** The terminal input engine (`TerminalInputEngine.fetchAction`): one line
    of input, upper-cased, decoded into an action. */
module TerminalInput {
  import opened Actions

  predicate IsUpperLetter(c: char) {
    'A' <= c <= 'Z'
  }

  function UpperChar(c: char): char {
    if 'a' <= c <= 'z' then (c as int - 32) as char else c
  }

  function LowerChar(c: char): char {
    if IsUpperLetter(c) then (c as int + 32) as char else c
  }

  /** `toUpperCase()` on ASCII. */
  function Upper(s: string): (r: string)
    ensures |r| == |s| && forall i :: 0 <= i < |s| ==> r[i] == UpperChar(s[i])
  {
    seq(|s|, i requires 0 <= i < |s| => UpperChar(s[i]))
  }

  /** `line` spells `word`, letter by letter in either case. */
  predicate SpellsIgnoringCase(line: string, word: string) {
    |line| == |word| && forall i :: 0 <= i < |line| ==> line[i] == word[i] || line[i] == LowerChar(word[i])
  }

  /** `fetchAction()` after the line is read: W/A/S/D steer player 0, K/H/J/L
      player 1, U undoes and EXIT exits; anything else is invalid input. */
  function FetchAction(line: string): (r: Action)
    ensures r.Move? ==> r.initiator in {0, 1}
    ensures !r.Move? ==> r.initiator == -1
    ensures r.InvalidInput? ==> r.message == InvalidInputMessage
  {
    var key := Upper(line);
    if key == "A" then Move(Left, 0)
    else if key == "S" then Move(Down, 0)
    else if key == "W" then Move(Up, 0)
    else if key == "D" then Move(Right, 0)
    else if key == "H" then Move(Left, 1)
    else if key == "J" then Move(Down, 1)
    else if key == "K" then Move(Up, 1)
    else if key == "L" then Move(Right, 1)
    else if key == "U" then Undo(-1)
    else if key == "EXIT" then Exit(-1)
    else InvalidInput(-1, InvalidInputMessage)
  }

  /** Upper-casing a line that spells an upper-case word gives the word, and
      only such lines do. */
  lemma UpperSpells(line: string, word: string)
    requires forall i :: 0 <= i < |word| ==> IsUpperLetter(word[i])
    ensures Upper(line) == word <==> SpellsIgnoringCase(line, word)
  {
    if SpellsIgnoringCase(line, word) {
      assert forall i :: 0 <= i < |line| ==> Upper(line)[i] == word[i];
    }
    if Upper(line) == word {
      forall i | 0 <= i < |line|
        ensures line[i] == word[i] || line[i] == LowerChar(word[i])
      {
        assert UpperChar(line[i]) == word[i];
      }
    }
  }

  /** A line and its upper-cased form decode alike. */
  lemma FetchIgnoresCase(line: string)
    ensures FetchAction(Upper(line)) == FetchAction(line)
  {
    assert Upper(Upper(line)) == Upper(line);
  }

  /** A, S, W and D in either case, and nothing else, steer player 0 left,
      down, up and right. */
  lemma PlayerZeroKeys(line: string)
    ensures FetchAction(line) == Move(Left, 0) <==> SpellsIgnoringCase(line, "A")
    ensures FetchAction(line) == Move(Down, 0) <==> SpellsIgnoringCase(line, "S")
    ensures FetchAction(line) == Move(Up, 0) <==> SpellsIgnoringCase(line, "W")
    ensures FetchAction(line) == Move(Right, 0) <==> SpellsIgnoringCase(line, "D")
  {
    UpperSpells(line, "A");
    UpperSpells(line, "S");
    UpperSpells(line, "W");
    UpperSpells(line, "D");
  }

  /** H, J, K and L in either case, and nothing else, steer player 1 left,
      down, up and right. */
  lemma PlayerOneKeys(line: string)
    ensures FetchAction(line) == Move(Left, 1) <==> SpellsIgnoringCase(line, "H")
    ensures FetchAction(line) == Move(Down, 1) <==> SpellsIgnoringCase(line, "J")
    ensures FetchAction(line) == Move(Up, 1) <==> SpellsIgnoringCase(line, "K")
    ensures FetchAction(line) == Move(Right, 1) <==> SpellsIgnoringCase(line, "L")
  {
    UpperSpells(line, "H");
    UpperSpells(line, "J");
    UpperSpells(line, "K");
    UpperSpells(line, "L");
  }

  /** "u" or "U" is Undo, "exit" in any mix of cases is Exit; both carry
      initiator -1. */
  lemma UndoAndExitKeys(line: string)
    ensures FetchAction(line).Undo? <==> SpellsIgnoringCase(line, "U")
    ensures FetchAction(line).Exit? <==> SpellsIgnoringCase(line, "EXIT")
    ensures FetchAction(line).Undo? ==> FetchAction(line) == Undo(-1)
    ensures FetchAction(line).Exit? ==> FetchAction(line) == Exit(-1)
  {
    UpperSpells(line, "U");
    UpperSpells(line, "EXIT");
  }

  /** The words the engine knows. */
  const Keywords: seq<string> := ["A", "S", "W", "D", "H", "J", "K", "L", "U", "EXIT"]

  /** Every other line is invalid input with the invalid-input message; moves
      come only from players 0 and 1. */
  lemma OtherLinesInvalid(line: string)
    ensures FetchAction(line).InvalidInput? <==>
              forall i :: 0 <= i < |Keywords| ==> !SpellsIgnoringCase(line, Keywords[i])
    ensures FetchAction(line).InvalidInput? ==> FetchAction(line) == InvalidInput(-1, InvalidInputMessage)
    ensures FetchAction(line).Move? ==> FetchAction(line).initiator in {0, 1}
  {
    forall i | 0 <= i < |Keywords|
      ensures Upper(line) == Keywords[i] <==> SpellsIgnoringCase(line, Keywords[i])
    {
      UpperSpells(line, Keywords[i]);
    }
    assert Upper(line) in Keywords <==> exists i :: 0 <= i < |Keywords| && Upper(line) == Keywords[i];
  }
}
