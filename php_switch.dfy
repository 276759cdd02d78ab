/**
 * PHP's `switch` over a string subject, as the report renderer uses it.
 *
 * The cases are tried in the order they are written and the first whose
 * label is `==` to the subject is entered; `default` is entered only when no
 * case matches. A case with an empty body falls through to the statements of
 * the next case, so it is written here with the arm of those statements.
 * Every label and subject in this model is a non-numeric string, for which
 * PHP's `==` is plain string equality.
 */
module PhpSwitch {
  import opened Optional

  datatype Case<A> = Case(key: string, arm: A)

  /** The position of the case a `switch` enters, or None when it enters `default`. */
  function SwitchIndex<A>(cases: seq<Case<A>>, subject: string): (r: Option<nat>)
    ensures r.Some? ==> r.value < |cases| && cases[r.value].key == subject
    ensures r.Some? ==> forall k :: 0 <= k < r.value ==> cases[k].key != subject
    ensures r.None? <==> forall k :: 0 <= k < |cases| ==> cases[k].key != subject
    decreases |cases|
  {
    if |cases| == 0 then None
    else if cases[0].key == subject then Some(0)
    else
      match SwitchIndex(cases[1..], subject)
      case None => None
      case Some(i) => Some(i + 1)
  }

  /** The arm a `switch` runs: that of the first matching case, else `otherwise`. */
  function Switch<A>(cases: seq<Case<A>>, subject: string, otherwise: A): (r: A)
    ensures (forall k :: 0 <= k < |cases| ==> cases[k].key != subject) ==> r == otherwise
    ensures forall k ::
              (0 <= k < |cases| && cases[k].key == subject &&
               forall j :: 0 <= j < k ==> cases[j].key != subject) ==> r == cases[k].arm
  {
    match SwitchIndex(cases, subject)
    case None => otherwise
    case Some(i) => cases[i].arm
  }

  /** A case whose label repeats an earlier case's label is never entered. */
  lemma ShadowedCaseNeverTaken<A>(cases: seq<Case<A>>, i: nat, j: nat, subject: string)
    requires i < j < |cases| && cases[i].key == cases[j].key
    ensures SwitchIndex(cases, subject) != Some(j)
  {
  }

}
