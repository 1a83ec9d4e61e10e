/** The human-readable labels of poll methods, poll states and sentence categories (utils/formatter). */
module Formatter {
  import opened Consts

  /** FormatPollMethod: the label of a poll method, "未知" for any other value. */
  function FormatPollMethod(t: int): (text: string)
    ensures text != ""
    ensures text == "未知" <==> t !in PollMethods
  {
    if t == PollMethodApprove then "赞同"
    else if t == PollMethodReject then "驳回"
    else if t == PollMethodNeedModify then "亟待修改"
    else if t == PollMethodNeedCommonUserPoll then "需要普通用户投票"
    else "未知"
  }

  /** FormatPollStatus: the label of a poll state, "未知" for PollStatusUnknown and any unlisted value. */
  function FormatPollStatus(t: int): (text: string)
    ensures text != ""
    ensures text == "未知" <==> t !in PollStatuses[1..]
  {
    if t == PollStatusNotOpen then "未开放"
    else if t == PollStatusOpen then "开放"
    else if t == PollStatusProcessing then "处理中"
    else if t == PollStatusSuspended then "暂停"
    else if t == PollStatusClosed then "已关闭"
    else if t == PollStatusOpenForCommonUser then "开放给普通用户投票"
    else if t == PollStatusApproved then "入库"
    else if t == PollStatusRejected then "驳回"
    else if t == PollStatusNeedModify then "亟待修改"
    else "未知"
  }

  /** FormatHitokotoType: the bilingual label of a category, "Unknown - 未知" for any other code. */
  function FormatHitokotoType(t: string): (text: string)
    ensures text != ""
    ensures text == "Unknown - 未知" <==> t !in HitokotoTypes
  {
    if t == HitokotoTypeAnime then "Anime - 动画"
    else if t == HitokotoTypeComic then "Comic – 漫画"
    else if t == HitokotoTypeLiterature then "Literature - 文学"
    else if t == HitokotoTypeGame then "Game - 游戏"
    else if t == HitokotoTypeOriginal then "Original - 原创"
    else if t == HitokotoTypeInternet then "Internet - 来自网络"
    else if t == HitokotoTypeOther then "Other - 其他"
    else if t == HitokotoTypeVideo then "Video - 影视"
    else if t == HitokotoTypePoetry then "Poetry - 古诗词"
    else if t == HitokotoTypeNetEase then "NetEase - 网易云音乐"
    else if t == HitokotoTypePhilosophy then "Philosophy - 哲学"
    else if t == HitokotoTypeJoke then "Joke - 抖机灵"
    else "Unknown - 未知"
  }

  /** Distinct poll methods get distinct labels. */
  lemma PollMethodLabelsDistinct(s: int, t: int)
    requires s in PollMethods && t in PollMethods && s != t
    ensures FormatPollMethod(s) != FormatPollMethod(t)
  {
  }

  /** The listed poll state a label names: FormatPollStatus read backwards. */
  function PollStatusOfLabel(text: string): int
  {
    if text == "未开放" then PollStatusNotOpen
    else if text == "开放" then PollStatusOpen
    else if text == "处理中" then PollStatusProcessing
    else if text == "暂停" then PollStatusSuspended
    else if text == "已关闭" then PollStatusClosed
    else if text == "开放给普通用户投票" then PollStatusOpenForCommonUser
    else if text == "入库" then PollStatusApproved
    else if text == "驳回" then PollStatusRejected
    else PollStatusNeedModify
  }

  /** A listed poll state is recovered from its label. */
  lemma PollStatusLabelRoundTrip(t: int)
    requires t in PollStatuses[1..]
    ensures PollStatusOfLabel(FormatPollStatus(t)) == t
  {
    assert t in {0, 1, 2, 100, 101, 102, 200, 201, 202};
  }

  /** Distinct listed poll states get distinct labels. */
  lemma PollStatusLabelsDistinct(s: int, t: int)
    requires s in PollStatuses[1..] && t in PollStatuses[1..] && s != t
    ensures FormatPollStatus(s) != FormatPollStatus(t)
  {
    PollStatusLabelRoundTrip(s);
    PollStatusLabelRoundTrip(t);
  }

  /** The category a label names: FormatHitokotoType read backwards. */
  function HitokotoTypeOfLabel(text: string): string
  {
    if text == "Anime - 动画" then HitokotoTypeAnime
    else if text == "Comic – 漫画" then HitokotoTypeComic
    else if text == "Literature - 文学" then HitokotoTypeLiterature
    else if text == "Game - 游戏" then HitokotoTypeGame
    else if text == "Original - 原创" then HitokotoTypeOriginal
    else if text == "Internet - 来自网络" then HitokotoTypeInternet
    else if text == "Other - 其他" then HitokotoTypeOther
    else if text == "Video - 影视" then HitokotoTypeVideo
    else if text == "Poetry - 古诗词" then HitokotoTypePoetry
    else if text == "NetEase - 网易云音乐" then HitokotoTypeNetEase
    else if text == "Philosophy - 哲学" then HitokotoTypePhilosophy
    else HitokotoTypeJoke
  }

  /** A category is recovered from its label. */
  lemma HitokotoTypeLabelRoundTrip(t: string)
    requires t in HitokotoTypes
    ensures HitokotoTypeOfLabel(FormatHitokotoType(t)) == t
  {
    var text := FormatHitokotoType(t);
    if t == HitokotoTypeAnime {
      assert text == "Anime - 动画";
    } else if t == HitokotoTypeComic {
      assert text == "Comic – 漫画";
    } else if t == HitokotoTypeGame {
      assert text == "Game - 游戏";
    } else if t == HitokotoTypeLiterature {
      assert text == "Literature - 文学";
    } else if t == HitokotoTypeOriginal {
      assert text == "Original - 原创";
    } else if t == HitokotoTypeInternet {
      assert text == "Internet - 来自网络";
    } else if t == HitokotoTypeOther {
      assert text == "Other - 其他";
    } else if t == HitokotoTypeVideo {
      assert text == "Video - 影视";
    } else if t == HitokotoTypePoetry {
      assert text == "Poetry - 古诗词";
    } else if t == HitokotoTypeNetEase {
      assert text == "NetEase - 网易云音乐";
    } else if t == HitokotoTypePhilosophy {
      assert text == "Philosophy - 哲学";
    } else {
      assert text == "Joke - 抖机灵";
    }
  }

  /** Distinct category codes get distinct labels. */
  lemma HitokotoTypeLabelsDistinct(s: string, t: string)
    requires s in HitokotoTypes && t in HitokotoTypes && s != t
    ensures FormatHitokotoType(s) != FormatHitokotoType(t)
  {
    HitokotoTypeLabelRoundTrip(s);
    HitokotoTypeLabelRoundTrip(t);
  }
}
