/** The older, table-based category formatter (utils/formatter.go). */
module LegacyFormatter {
  import opened Consts
  import Formatter

  /** The read-only package table from category code to label. */
  const HitokotoTypeLabels: map<string, string> := map[
    "a" := "Anime - 动画",
    "b" := "Comic – 漫画",
    "c" := "Game – 游戏",
    "d" := "Novel – 小说",
    "e" := "Myself – 原创",
    "f" := "Internet – 来自网络",
    "g" := "Other – 其他",
    "h" := "Video – 影视",
    "i" := "Poetry – 古诗词",
    "j" := "NetEase – 网易云音乐",
    "k" := "Philosophy – 哲学",
    "l" := "Joke - 抖机灵"
  ]

  /** FormatHitokotoType: the table's label for a code, "未知分类" when the table has none. */
  function FormatHitokotoType(t: string): (text: string)
    ensures text != ""
    ensures text == "未知分类" <==> t !in HitokotoTypes
    ensures t in HitokotoTypes ==> text == HitokotoTypeLabels[t]
  {
    if t in HitokotoTypeLabels then HitokotoTypeLabels[t] else "未知分类"
  }

  /** The table's codes are exactly the twelve categories. */
  lemma TableCoversCategories()
    ensures HitokotoTypeLabels.Keys == set t | t in HitokotoTypes
  {
  }

  /**
   * The two formatters agree only on "a", "b" and "l": the table calls "d" Novel and "e" Myself,
   * and writes an en dash where the newer formatter writes a hyphen for "c" and "f" to "k".
   */
  lemma DiffersFromFormatter(t: string)
    requires t in HitokotoTypes
    ensures FormatHitokotoType(t) == Formatter.FormatHitokotoType(t) <==> t in {"a", "b", "l"}
  {
    if t in {"a", "b", "l"} {
      assert HitokotoTypes[0] == "a" && HitokotoTypes[1] == "b" && HitokotoTypes[11] == "l";
    } else {
      LabelsDiffer(t);
    }
  }

  /** Outside "a", "b" and "l", each pair of labels differs at one position: the first letter or the dash. */
  lemma LabelsDiffer(t: string)
    requires t in HitokotoTypes && t !in {"a", "b", "l"}
    ensures FormatHitokotoType(t) != Formatter.FormatHitokotoType(t)
  {
    var legacy, current := FormatHitokotoType(t), Formatter.FormatHitokotoType(t);
    if t == HitokotoTypeGame {
      assert legacy[5] != current[5];
    } else if t == HitokotoTypeLiterature {
      assert legacy[0] != current[0];
    } else if t == HitokotoTypeOriginal {
      assert legacy[0] != current[0];
    } else if t == HitokotoTypeInternet {
      assert legacy[9] != current[9];
    } else if t == HitokotoTypeOther {
      assert legacy[6] != current[6];
    } else if t == HitokotoTypeVideo {
      assert legacy[6] != current[6];
    } else if t == HitokotoTypePoetry {
      assert legacy[7] != current[7];
    } else if t == HitokotoTypeNetEase {
      assert legacy[8] != current[8];
    } else {
      assert legacy[11] != current[11];
    }
  }

  /** Where the names differ: "d" is Novel in the table and Literature in the newer formatter, "e" Myself and Original. */
  lemma RenamedCategories()
    ensures FormatHitokotoType("d") == "Novel – 小说" && Formatter.FormatHitokotoType("d") == "Literature - 文学"
    ensures FormatHitokotoType("e") == "Myself – 原创" && Formatter.FormatHitokotoType("e") == "Original - 原创"
  {
    HitokotoTypeValues();
  }
}
