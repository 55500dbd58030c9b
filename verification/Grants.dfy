/** What later rules of a phase can read after a delegation or an elicitation (`delegation.granted.*`
    and `elicitation.*` in `evaluator.rs`). */
module Grants {
  import opened Text
  import opened Ir
  import opened Attributes
  import opened World
  import opened Constraints
  import opened Runs
  import opened Leaves

  /** `new` where it is given, otherwise what was there before. */
  function Or<T>(given: Option<T>, before: Option<T>): Option<T> { if given.Some? then given else before }

  ghost predicate SameElsewhere(before: Bag, after: Bag, keys: set<string>)
  {
    forall key :: key !in keys ==> (key in after <==> key in before) && (key in after ==> after[key] == before[key])
  }

  const GRANT_KEYS := {GRANTED, GRANTED_PERMISSIONS, GRANTED_AUDIENCE, GRANTED_EXPIRES_AT}

  /** A remark: an allowed delegation can be read back key by key; one not allowed leaves no trace in
      the bag, whatever `on_error` says. */
  lemma GrantIsReadable(d: DelegateStep, st: State, pos: Pos, phase: Phase, w: World)
    ensures var answer, bag := w.delegate(pos, d), DelegateRun(d, st, pos, phase, w).st.bag;
      if answer.DelegateOk? && answer.decision.Allowed? then
        && GetBool(bag, GRANTED) == Some(true)
        && GetStringSet(bag, GRANTED_PERMISSIONS) ==
             (if answer.permissions == [] then GetStringSet(st.bag, GRANTED_PERMISSIONS)
              else Some(ToSet(answer.permissions)))
        && GetString(bag, GRANTED_AUDIENCE) == Or(answer.audience, GetString(st.bag, GRANTED_AUDIENCE))
        && GetString(bag, GRANTED_EXPIRES_AT) == Or(answer.expiresAt, GetString(st.bag, GRANTED_EXPIRES_AT))
        && SameElsewhere(st.bag, bag, GRANT_KEYS)
      else bag == st.bag
  {
    assert |GRANTED| < |GRANTED_AUDIENCE| < |GRANTED_EXPIRES_AT| < |GRANTED_PERMISSIONS|;
  }

  const QUESTION_KEYS := {ELICIT_ID, ELICIT_STATUS, ELICIT_CHANNEL, ELICIT_APPROVER, ELICIT_INTENT_ID,
                          ELICIT_EXPIRES_AT}

  lemma KeysDiffer()
    ensures ELICIT_ID !in GRANT_KEYS && ELICIT_ID != ELICIT_OUTCOME
    ensures ELICIT_ID != ELICIT_STATUS && ELICIT_CHANNEL !in {ELICIT_ID, ELICIT_STATUS}
    ensures ELICIT_APPROVER !in {ELICIT_ID, ELICIT_STATUS, ELICIT_CHANNEL}
    ensures ELICIT_INTENT_ID !in {ELICIT_ID, ELICIT_STATUS, ELICIT_CHANNEL, ELICIT_APPROVER}
    ensures ELICIT_EXPIRES_AT !in {ELICIT_ID, ELICIT_STATUS, ELICIT_CHANNEL, ELICIT_APPROVER, ELICIT_INTENT_ID}
  {
    var n := |"elicitation."|;
    assert ELICIT_ID[n] == 'i' && ELICIT_STATUS[n] == 's' && ELICIT_CHANNEL[n] == 'c' && ELICIT_APPROVER[n] == 'a';
    assert ELICIT_INTENT_ID[n] == 'i' && ELICIT_EXPIRES_AT[n] == 'e' && ELICIT_OUTCOME[n] == 'o';
    assert |ELICIT_ID| < |ELICIT_INTENT_ID|;
    assert forall k :: k in GRANT_KEYS ==> k[0] == 'd';
  }

  /** A freshly opened question can be read back: the id a retry echoes, and what the channel told. */
  lemma QuestionIsReadable(step: ElicitStep, bag: Bag, id: string, approver: Option<string>, intentId: Option<string>,
                           expiresAt: Option<string>)
    ensures var b := OpenedBag(bag, step, id, approver, intentId, expiresAt);
      && GetString(b, ELICIT_ID) == Some(id)
      && GetString(b, ELICIT_STATUS) == Some("pending")
      && GetString(b, ELICIT_CHANNEL) == Or(step.channel, GetString(bag, ELICIT_CHANNEL))
      && GetString(b, ELICIT_APPROVER) == Or(approver, GetString(bag, ELICIT_APPROVER))
      && GetString(b, ELICIT_INTENT_ID) == Or(intentId, GetString(bag, ELICIT_INTENT_ID))
      && GetString(b, ELICIT_EXPIRES_AT) == Or(expiresAt, GetString(bag, ELICIT_EXPIRES_AT))
      && SameElsewhere(bag, b, QUESTION_KEYS)
  {
    KeysDiffer();
  }
}
