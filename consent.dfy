/** The answer test inside `confirm`: the reply, lower-cased, must be exactly `y` or `yes`. */
module Consent {
  import opened Text

  predicate IsAffirmative(answer: string) {
    var a := Lower(answer);
    a == "y" || a == "yes"
  }

  predicate IsY(c: char) { c == 'y' || c == 'Y' }

  /**
   * The accepted replies are exactly the one- and three-letter spellings of `y` and `yes`
   * in any mix of cases; nothing is trimmed, so a stray space or an empty reply declines.
   */
  lemma AffirmativeExactly(answer: string)
    ensures IsAffirmative(answer) <==>
      (|answer| == 1 && IsY(answer[0])) ||
      (|answer| == 3 && IsY(answer[0]) && (answer[1] == 'e' || answer[1] == 'E')
                     && (answer[2] == 's' || answer[2] == 'S'))
  {
    var a := Lower(answer);
    if |answer| == 1 {
      assert a == [LowerChar(answer[0])];
    } else if |answer| == 3 {
      assert a == [LowerChar(answer[0]), LowerChar(answer[1]), LowerChar(answer[2])];
    }
  }

  /** The replies the documentation lists, decided as it says. */
  lemma DocumentedReplies()
    ensures IsAffirmative("y") && IsAffirmative("Y") && IsAffirmative("yes") && IsAffirmative("YES")
    ensures !IsAffirmative("") && !IsAffirmative("n") && !IsAffirmative("no") && !IsAffirmative(" y")
  {
    AffirmativeExactly("y");
    AffirmativeExactly("Y");
    AffirmativeExactly("yes");
    AffirmativeExactly("YES");
    AffirmativeExactly("");
    AffirmativeExactly("n");
    AffirmativeExactly("no");
    AffirmativeExactly(" y");
  }
}
