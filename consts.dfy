/** The enumerations of the consts package: poll methods, poll states and sentence categories. */
module Consts {

  // PollMethod: what a reviewer voted (an int, counting from 1).
  const PollMethodApprove: int := 1
  const PollMethodReject: int := 2
  const PollMethodNeedModify: int := 3
  const PollMethodNeedCommonUserPoll: int := 4

  /** Every PollMethod constant, in declaration order. */
  const PollMethods: seq<int> :=
    [PollMethodApprove, PollMethodReject, PollMethodNeedModify, PollMethodNeedCommonUserPoll]

  // PollStatus: the state of a poll (an int; -1 means the poll does not exist).
  const PollStatusUnknown: int := -1
  const PollStatusNotOpen: int := 0
  const PollStatusOpen: int := 1
  const PollStatusProcessing: int := 2
  const PollStatusSuspended: int := 100
  const PollStatusClosed: int := 101
  const PollStatusOpenForCommonUser: int := 102
  const PollStatusApproved: int := 200
  const PollStatusRejected: int := 201
  const PollStatusNeedModify: int := 202

  /** Every PollStatus constant, in declaration order. */
  const PollStatuses: seq<int> :=
    [PollStatusUnknown, PollStatusNotOpen, PollStatusOpen, PollStatusProcessing,
     PollStatusSuspended, PollStatusClosed, PollStatusOpenForCommonUser,
     PollStatusApproved, PollStatusRejected, PollStatusNeedModify]

  // HitokotoType: the one-letter category code of a sentence.
  const HitokotoTypeAnime: string := "a"
  const HitokotoTypeComic: string := "b"
  const HitokotoTypeGame: string := "c"
  const HitokotoTypeLiterature: string := "d"
  const HitokotoTypeOriginal: string := "e"
  const HitokotoTypeInternet: string := "f"
  const HitokotoTypeOther: string := "g"
  const HitokotoTypeVideo: string := "h"
  const HitokotoTypePoetry: string := "i"
  const HitokotoTypeNetEase: string := "j"
  const HitokotoTypePhilosophy: string := "k"
  const HitokotoTypeJoke: string := "l"

  /** Every HitokotoType constant, in declaration order. */
  const HitokotoTypes: seq<string> :=
    [HitokotoTypeAnime, HitokotoTypeComic, HitokotoTypeGame, HitokotoTypeLiterature,
     HitokotoTypeOriginal, HitokotoTypeInternet, HitokotoTypeOther, HitokotoTypeVideo,
     HitokotoTypePoetry, HitokotoTypeNetEase, HitokotoTypePhilosophy, HitokotoTypeJoke]

  /** The poll methods are 1, 2, 3 and 4, one after the other. */
  lemma PollMethodValues()
    ensures |PollMethods| == 4
    ensures forall i :: 0 <= i < |PollMethods| ==> PollMethods[i] == i + 1
  {
  }

  /** The ten poll states are pairwise distinct, and the three verdicts are 200, 201 and 202. */
  lemma PollStatusValues()
    ensures |PollStatuses| == 10
    ensures forall i, j :: 0 <= i < j < |PollStatuses| ==> PollStatuses[i] != PollStatuses[j]
    ensures PollStatusApproved == 200 && PollStatusRejected == 201 && PollStatusNeedModify == 202
  {
  }

  /** There are twelve categories, the letters "a" to "l" in order, so each is a distinct lower-case letter. */
  lemma HitokotoTypeValues()
    ensures |HitokotoTypes| == 12
    ensures forall i :: 0 <= i < |HitokotoTypes| ==> HitokotoTypes[i] == [('a' as int + i) as char]
    ensures forall i, j :: 0 <= i < j < |HitokotoTypes| ==> HitokotoTypes[i] != HitokotoTypes[j]
    ensures HitokotoTypeGame == "c" && HitokotoTypeLiterature == "d"
    ensures HitokotoTypePhilosophy == "k" && HitokotoTypeJoke == "l"
  {
  }
}
