/** What a call with several checks answers: the status of the first check that fails. */
module Verdicts {
  import opened Amounts

  type Error = status: Status | status != Ok witness ErrState

  datatype Check = Check(passes: bool, otherwise: Error)

  predicate AllPass(checks: seq<Check>) {
    forall i {:trigger checks[i]} | 0 <= i < |checks| :: checks[i].passes
  }

  /** The first failing check speaks for all of them. */
  function Verdict(checks: seq<Check>): Status {
    if |checks| == 0 then Ok else if checks[0].passes then Verdict(checks[1..]) else checks[0].otherwise
  }

  lemma {:induction false} VerdictOkIff(checks: seq<Check>)
    ensures Verdict(checks) == Ok <==> AllPass(checks)
  {
    if |checks| > 0 {
      VerdictOkIff(checks[1..]);
      assert AllPass(checks) <==> checks[0].passes && AllPass(checks[1..]) by {
        assert forall i | 0 < i < |checks| :: checks[i] == checks[1..][i - 1];
      }
    }
  }

  /** The verdict is the status of a failing check that only passing ones precede. */
  lemma {:induction false} VerdictAt(checks: seq<Check>, k: nat)
    requires k < |checks| && !checks[k].passes && forall i | 0 <= i < k :: checks[i].passes
    ensures Verdict(checks) == checks[k].otherwise
  {
    if k > 0 {
      VerdictAt(checks[1..], k - 1);
    }
  }

  lemma {:induction false} VerdictConcat(first: seq<Check>, second: seq<Check>)
    ensures Verdict(first + second) == if Verdict(first) == Ok then Verdict(second) else Verdict(first)
  {
    if |first| == 0 {
      assert first + second == second;
    } else {
      VerdictConcat(first[1..], second);
      assert (first + second)[1..] == first[1..] + second;
    }
  }

  lemma {:induction false} VerdictOfTwo(checks: seq<Check>)
    requires |checks| == 2
    ensures Verdict(checks)
         == if !checks[0].passes then checks[0].otherwise
            else if !checks[1].passes then checks[1].otherwise
            else Ok
  {
    VerdictOkIff(checks);
    hide Verdict;
    if !checks[0].passes {
      VerdictAt(checks, 0);
    } else if !checks[1].passes {
      VerdictAt(checks, 1);
    }
  }

  lemma {:induction false} VerdictOfThree(checks: seq<Check>)
    requires |checks| == 3
    ensures Verdict(checks)
         == if !checks[0].passes then checks[0].otherwise
            else if !checks[1].passes then checks[1].otherwise
            else if !checks[2].passes then checks[2].otherwise
            else Ok
  {
    VerdictOkIff(checks);
    hide Verdict;
    if !checks[0].passes {
      VerdictAt(checks, 0);
    } else if !checks[1].passes {
      VerdictAt(checks, 1);
    } else if !checks[2].passes {
      VerdictAt(checks, 2);
    }
  }

  lemma {:induction false} VerdictOfFour(checks: seq<Check>)
    requires |checks| == 4
    ensures Verdict(checks)
         == if !checks[0].passes then checks[0].otherwise
            else if !checks[1].passes then checks[1].otherwise
            else if !checks[2].passes then checks[2].otherwise
            else if !checks[3].passes then checks[3].otherwise
            else Ok
  {
    VerdictOkIff(checks);
    hide Verdict;
    if !checks[0].passes {
      VerdictAt(checks, 0);
    } else if !checks[1].passes {
      VerdictAt(checks, 1);
    } else if !checks[2].passes {
      VerdictAt(checks, 2);
    } else if !checks[3].passes {
      VerdictAt(checks, 3);
    }
  }

  lemma {:induction false} VerdictOfFive(checks: seq<Check>)
    requires |checks| == 5
    ensures Verdict(checks)
         == if !checks[0].passes then checks[0].otherwise
            else if !checks[1].passes then checks[1].otherwise
            else if !checks[2].passes then checks[2].otherwise
            else if !checks[3].passes then checks[3].otherwise
            else if !checks[4].passes then checks[4].otherwise
            else Ok
  {
    VerdictOkIff(checks);
    hide Verdict;
    if !checks[0].passes {
      VerdictAt(checks, 0);
    } else if !checks[1].passes {
      VerdictAt(checks, 1);
    } else if !checks[2].passes {
      VerdictAt(checks, 2);
    } else if !checks[3].passes {
      VerdictAt(checks, 3);
    } else if !checks[4].passes {
      VerdictAt(checks, 4);
    }
  }

  lemma {:induction false} VerdictOfSix(checks: seq<Check>)
    requires |checks| == 6
    ensures Verdict(checks)
         == if !checks[0].passes then checks[0].otherwise
            else if !checks[1].passes then checks[1].otherwise
            else if !checks[2].passes then checks[2].otherwise
            else if !checks[3].passes then checks[3].otherwise
            else if !checks[4].passes then checks[4].otherwise
            else if !checks[5].passes then checks[5].otherwise
            else Ok
  {
    VerdictOkIff(checks);
    hide Verdict;
    if !checks[0].passes {
      VerdictAt(checks, 0);
    } else if !checks[1].passes {
      VerdictAt(checks, 1);
    } else if !checks[2].passes {
      VerdictAt(checks, 2);
    } else if !checks[3].passes {
      VerdictAt(checks, 3);
    } else if !checks[4].passes {
      VerdictAt(checks, 4);
    } else if !checks[5].passes {
      VerdictAt(checks, 5);
    }
  }
}
