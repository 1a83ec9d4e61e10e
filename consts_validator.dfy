/** The custom validators that check a field holds one of the enumerated constants. */
module ConstsValidator {
  import opened Wrappers
  import opened Consts

  /** The dynamic Go type and value behind the reflect.Value a custom validator receives. */
  datatype Dynamic =
    | HitokotoTypeValue(code: string)
    | PollMethodValue(pollMethod: int)
    | PollStatusValue(status: int)
    | OtherValue  // a value of any other Go type, a plain string or int included

  /** validateHitokotoTypeValue: the code as a string for the twelve categories, nil otherwise. */
  function ValidateHitokotoTypeValue(v: Dynamic): (r: Option<string>)
    ensures r.Some? <==> v.HitokotoTypeValue? && v.code in HitokotoTypes
    ensures r.Some? ==> r.value == v.code
  {
    match v
    case HitokotoTypeValue(code) =>
      if code == HitokotoTypeAnime || code == HitokotoTypeComic || code == HitokotoTypeGame
        || code == HitokotoTypeLiterature || code == HitokotoTypeOriginal || code == HitokotoTypeInternet
        || code == HitokotoTypeOther || code == HitokotoTypeVideo || code == HitokotoTypePoetry
        || code == HitokotoTypeNetEase || code == HitokotoTypePhilosophy || code == HitokotoTypeJoke
      then Some(code)
      else None
    case _ => None
  }

  /** validatePollMethodValue: the int value for the four poll methods, nil otherwise. */
  function ValidatePollMethodValue(v: Dynamic): (r: Option<int>)
    ensures r.Some? <==> v.PollMethodValue? && v.pollMethod in PollMethods
    ensures r.Some? ==> r.value == v.pollMethod && 1 <= r.value <= 4
  {
    match v
    case PollMethodValue(m) =>
      if m == PollMethodApprove || m == PollMethodReject
        || m == PollMethodNeedCommonUserPoll || m == PollMethodNeedModify
      then Some(m)
      else None
    case _ => None
  }

  /** validatePollStatusValue: the int value for the ten poll states (-1 and 0 included), nil otherwise. */
  function ValidatePollStatusValue(v: Dynamic): (r: Option<int>)
    ensures r.Some? <==> v.PollStatusValue? && v.status in PollStatuses
    ensures r.Some? ==> r.value == v.status
  {
    match v
    case PollStatusValue(s) =>
      if s == PollStatusUnknown || s == PollStatusNotOpen || s == PollStatusOpen
        || s == PollStatusProcessing || s == PollStatusSuspended || s == PollStatusClosed
        || s == PollStatusOpenForCommonUser || s == PollStatusApproved
        || s == PollStatusRejected || s == PollStatusNeedModify
      then Some(s)
      else None
    case _ => None
  }

  /** A value of the wrong Go type is rejected by every validator, whatever it holds. */
  lemma WrongTypeRejected(v: Dynamic)
    ensures !v.HitokotoTypeValue? ==> ValidateHitokotoTypeValue(v).None?
    ensures !v.PollMethodValue? ==> ValidatePollMethodValue(v).None?
    ensures !v.PollStatusValue? ==> ValidatePollStatusValue(v).None?
  {
  }

  /** The category codes the message tests use: "a" is accepted and "zXca" is rejected. */
  lemma CategoryExamples()
    ensures ValidateHitokotoTypeValue(HitokotoTypeValue("a")) == Some("a")
    ensures ValidateHitokotoTypeValue(HitokotoTypeValue("zXca")) == None
  {
  }
}
