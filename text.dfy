/** The string checks the workflows make on prompt answers and on the output
    of the commands they run. */
module Text {

  /** ASCII lower-casing of one character (the part of `toLowerCase` that
      matters for comparing an answer with "y"). */
  function Lower(c: char): (d: char)
    ensures 'A' <= c <= 'Z' ==> d as int == c as int + 32
    ensures !('A' <= c <= 'Z') ==> d == c
  {
    if 'A' <= c <= 'Z' then (c as int + 32) as char else c
  }

  /** `s.toLowerCase()`, restricted to ASCII letters. */
  function LowerCase(s: string): (t: string)
    ensures |t| == |s|
    ensures forall i :: 0 <= i < |s| ==> t[i] == Lower(s[i])
  {
    seq(|s|, i requires 0 <= i < |s| => Lower(s[i]))
  }

  /** The test every yes/no prompt applies: `answer.toLowerCase() === 'y'`.
      Exactly the answers "y" and "Y" pass it; "yes", "" and anything
      longer than one character do not. */
  predicate IsYes(answer: string)
    ensures IsYes(answer) <==> answer == "y" || answer == "Y"
  {
    LowerCaseIsY(answer);
    LowerCase(answer) == "y"
  }

  /** The strings that lower-case to "y". */
  lemma LowerCaseIsY(answer: string)
    ensures LowerCase(answer) == "y" <==> answer == "y" || answer == "Y"
  {
    if LowerCase(answer) == "y" {
      assert |answer| == 1;
      assert Lower(answer[0]) == 'y';
      assert answer == [answer[0]];
    }
  }

  /** `sub` occurs in `s` starting at index `i`. */
  predicate OccursAt(s: string, sub: string, i: int)
  {
    0 <= i <= |s| - |sub| && s[i..i + |sub|] == sub
  }

  /** `s.includes(sub)`: some window of `s` equals `sub`. */
  function Contains(s: string, sub: string): (r: bool)
    ensures r <==> exists i :: OccursAt(s, sub, i)
    decreases |s|
  {
    if |s| < |sub| then false
    else if s[..|sub|] == sub then assert OccursAt(s, sub, 0); true
    else
      var r' := Contains(s[1..], sub);
      assert r' ==> exists i :: OccursAt(s, sub, i) by {
        if r' {
          var j :| OccursAt(s[1..], sub, j);
          assert s[j + 1..j + 1 + |sub|] == s[1..][j..j + |sub|];
          assert OccursAt(s, sub, j + 1);
        }
      }
      assert (exists i :: OccursAt(s, sub, i)) ==> r' by {
        if exists i :: OccursAt(s, sub, i) {
          var i :| OccursAt(s, sub, i);
          assert i != 0;
          assert s[1..][i - 1..i - 1 + |sub|] == s[i..i + |sub|];
          assert OccursAt(s[1..], sub, i - 1);
        }
      }
      r'
  }
}
