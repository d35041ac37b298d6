/** A Swift `switch` over string literals with a `default:` branch, written as data: the cases in
    source order, each a literal and the value it yields. Cases are tried top to bottom and the
    first literal equal to the subject wins; when none is, the default is the result. */
module StringSwitch {

  function Switch<T>(cases: seq<(string, T)>, subject: string, default: T): T
    decreases |cases|
  {
    if cases == [] then default
    else if cases[0].0 == subject then cases[0].1
    else Switch(cases[1..], subject, default)
  }

  /** The literals the cases test. */
  function Labels<T>(cases: seq<(string, T)>): set<string>
  {
    set i | 0 <= i < |cases| :: cases[i].0
  }

  /** A case is reached when no case above it tests the same literal. */
  lemma {:induction false} SwitchHits<T>(cases: seq<(string, T)>, i: nat, default: T)
    requires i < |cases|
    requires forall j :: 0 <= j < i ==> cases[j].0 != cases[i].0
    ensures Switch(cases, cases[i].0, default) == cases[i].1
  {
    if i > 0 {
      SwitchHits(cases[1..], i - 1, default);
    }
  }

  /** A subject no case tests yields the default. */
  lemma {:induction false} SwitchMisses<T>(cases: seq<(string, T)>, subject: string, default: T)
    requires subject !in Labels(cases)
    ensures Switch(cases, subject, default) == default
  {
    if cases != [] {
      assert cases[0].0 in Labels(cases);
      assert Labels(cases[1..]) <= Labels(cases) by {
        forall s | s in Labels(cases[1..]) ensures s in Labels(cases) {
          var i :| 0 <= i < |cases[1..]| && cases[1..][i].0 == s;
          assert cases[i + 1].0 == s;
        }
      }
      SwitchMisses(cases[1..], subject, default);
    }
  }

  /** A subject some case tests selects the value of a case with that literal; any other subject
      selects the default. */
  lemma {:induction false} SwitchSelects<T>(cases: seq<(string, T)>, subject: string, default: T)
    ensures subject in Labels(cases) ==> (subject, Switch(cases, subject, default)) in cases
    ensures subject !in Labels(cases) ==> Switch(cases, subject, default) == default
  {
    if subject !in Labels(cases) {
      SwitchMisses(cases, subject, default);
    } else if cases[0].0 != subject {
      var i :| 0 <= i < |cases| && cases[i].0 == subject;
      assert subject in Labels(cases[1..]) by {
        assert cases[1..][i - 1].0 == subject;
      }
      SwitchSelects(cases[1..], subject, default);
    }
  }
}
