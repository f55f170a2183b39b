/** The column registry: the one static table every other module consults for
    column keys, their labels, the form's filter names, the difficulty names
    and the two groups of achievement columns. */
module Column {
  import opened Base
  import opened Builtins

  /** `Column.column_info`: key to label, in the dict's insertion order. */
  const ColumnInfo: seq<(string, string)> := [
    ("music_title", "楽曲名"),
    ("difficulty_name", "難易度"),
    ("level", "レベル"),
    ("artist", "作曲者"),
    ("count", "プレイ人数"),
    ("played", "PLAYED"),
    ("comp", "COMP"),
    ("ex_comp", "EX_COMP"),
    ("uc", "UC"),
    ("per", "PUC"),
    ("grade_B", "B"),
    ("grade_A", "A"),
    ("grade_Ap", "A+"),
    ("grade_AA", "AA"),
    ("grade_AAp", "AA+"),
    ("grade_AAA", "AAA"),
    ("grade_AAAp", "AAA+"),
    ("grade_S", "S"),
    ("grade_995", "995"),
    ("grade_998", "998"),
    ("avg_score", "平均スコア"),
    ("sd_score", "標準偏差"),
    ("avg_skill_u8", "～雷電"),
    ("avg_skill_9", "魔騎士"),
    ("avg_skill_10", "剛力羅"),
    ("avg_skill_11", "或帝滅斗"),
    ("avg_skill_12_n", "無枠暴龍天"),
    ("avg_skill_12_g", "金枠暴龍天"),
    ("avg_skill_12_h", "後光暴龍天"),
    ("avg_vf_u7", "～アルジェント"),
    ("avg_vf_8_i_ii", "エルドラ1, 2"),
    ("avg_vf_8_iii_iv", "エルドラ3, 4"),
    ("avg_vf_9_i", "クリムゾン1"),
    ("avg_vf_9_ii", "クリムゾン2"),
    ("avg_vf_9_iii", "クリムゾン3"),
    ("avg_vf_9_iv", "クリムゾン4"),
    ("avg_vf_10_i", "インペリアル1"),
    ("avg_vf_10_ii", "インペリアル2")
  ]

  /** `Column.filter_info`: the form names of the four filters. */
  const FilterInfo: seq<string> := ["level_filter", "difficulty", "music_title_filter", "artist_filter"]

  /** `Column.display_info`: the selectable columns, in table order. */
  const DisplayInfo: seq<string> := [
    "music_title", "difficulty_name", "level", "artist", "count",
    "played", "comp", "ex_comp", "uc", "per",
    "grade_B", "grade_A", "grade_Ap", "grade_AA", "grade_AAp",
    "grade_AAA", "grade_AAAp", "grade_S", "grade_995", "grade_998",
    "avg_score", "sd_score",
    "avg_skill_u8", "avg_skill_9", "avg_skill_10", "avg_skill_11",
    "avg_skill_12_n", "avg_skill_12_g", "avg_skill_12_h",
    "avg_vf_u7", "avg_vf_8_i_ii", "avg_vf_8_iii_iv", "avg_vf_9_i", "avg_vf_9_ii",
    "avg_vf_9_iii", "avg_vf_9_iv", "avg_vf_10_i", "avg_vf_10_ii"
  ]

  /** `Column.difficulties`: the names behind the difficulty indices 0..8. */
  const Difficulties: seq<string> :=
    ["NOVICE", "ADVANCED", "EXHAUST", "MAXIMUM", "INFINITE", "GRAVITY", "HEAVENLY", "VIVID", "EXCEED"]

  /** `Column.clear_mark`: the five clear-lamp columns. */
  const ClearMark: seq<string> := ["played", "comp", "ex_comp", "uc", "per"]

  /** `Column.score_grade`: the ten score-grade columns. */
  const ScoreGrade: seq<string> :=
    ["grade_B", "grade_A", "grade_Ap", "grade_AA", "grade_AAp",
     "grade_AAA", "grade_AAAp", "grade_S", "grade_995", "grade_998"]

  /** The three columns every narrowed selection carries. */
  const RequiredColumns: seq<string> := ["count", "difficulty_name", "music_title"]

  /** `d[key]` for a dict `d` given as its insertion-ordered items;
      `None` where Python raises `KeyError`. */
  function Lookup(items: seq<(string, string)>, key: string): Option<string>
  {
    if |items| == 0 then None
    else if items[0].0 == key then Some(items[0].1)
    else Lookup(items[1..], key)
  }

  /** The lookup finds exactly the keys the items list, with their values. */
  lemma {:induction false} LookupFinds(items: seq<(string, string)>, key: string)
    ensures Lookup(items, key).Some? <==> exists i :: 0 <= i < |items| && items[i].0 == key
    ensures Lookup(items, key).Some? ==> exists i :: 0 <= i < |items| && items[i] == (key, Lookup(items, key).value)
  {
    if |items| > 0 && items[0].0 != key {
      LookupFinds(items[1..], key);
      assert forall i :: 1 <= i < |items| ==> items[i] == items[1..][i - 1];
      if exists i :: 0 <= i < |items| && items[i].0 == key {
        var i :| 0 <= i < |items| && items[i].0 == key;
        assert items[1..][i - 1].0 == key;
      }
    }
  }

  /** The lookup reads the first item with the key. */
  lemma {:induction false} LookupFirst(items: seq<(string, string)>, i: nat, key: string)
    requires i < |items| && items[i].0 == key
    requires forall j :: 0 <= j < i ==> items[j].0 != key
    ensures Lookup(items, key) == Some(items[i].1)
  {
    if i > 0 {
      LookupFirst(items[1..], i - 1, key);
    }
  }

  /** `Column.column_info[key]`, `None` for a key the registry lacks. */
  function Label(key: string): Option<string>
  {
    Lookup(ColumnInfo, key)
  }

  /** A clear-lamp or score-grade column: the columns shown as counts or rates. */
  predicate IsAchievement(key: string)
  {
    key in ScoreGrade + ClearMark
  }

  /** The registry lists its keys in exactly the display order, so the
      table created from it and the rows of `SELECT *` line up with
      `DisplayInfo` position by position. */
  lemma ColumnOrderIsDisplayOrder()
    ensures |ColumnInfo| == |DisplayInfo|
    ensures forall i :: 0 <= i < |DisplayInfo| ==> ColumnInfo[i].0 == DisplayInfo[i]
  {
  }

  /** Every display key has a label, and only display keys have one. */
  lemma LabelledExactlyDisplayed(key: string)
    ensures Label(key).Some? <==> key in DisplayInfo
  {
    ColumnOrderIsDisplayOrder();
    LookupFindsKeys(ColumnInfo, DisplayInfo, key);
  }

  /** Items whose keys are `keys`, in order, have a value exactly for those keys. */
  lemma LookupFindsKeys(items: seq<(string, string)>, keys: seq<string>, key: string)
    requires |items| == |keys| && forall i :: 0 <= i < |keys| ==> items[i].0 == keys[i]
    ensures Lookup(items, key).Some? <==> key in keys
  {
    LookupFinds(items, key);
    if key in keys {
      var i :| 0 <= i < |keys| && keys[i] == key;
      assert items[i].0 == key;
    }
    if Lookup(items, key).Some? {
      var i :| 0 <= i < |items| && items[i].0 == key;
      assert keys[i] == key;
    }
  }

  /** No display key is listed twice, so `DisplayInfo.index(k)` is the one
      position of `k`. */
  lemma DisplayDistinct()
    ensures Distinct(DisplayInfo)
  {
    DistinctFrom0();
    DistinctFrom2();
    DistinctFrom4();
    DistinctFrom8();
    DistinctFrom13();
    DistinctFrom19();
    DistinctFrom27();
  }

  lemma DistinctFrom0()
    ensures forall i, j :: 0 <= i < 2 && i < j < |DisplayInfo| ==> DisplayInfo[i] != DisplayInfo[j]
  {
  }

  lemma DistinctFrom2()
    ensures forall i, j :: 2 <= i < 4 && i < j < |DisplayInfo| ==> DisplayInfo[i] != DisplayInfo[j]
  {
  }

  lemma DistinctFrom4()
    ensures forall i, j :: 4 <= i < 8 && i < j < |DisplayInfo| ==> DisplayInfo[i] != DisplayInfo[j]
  {
  }

  lemma DistinctFrom8()
    ensures forall i, j :: 8 <= i < 13 && i < j < |DisplayInfo| ==> DisplayInfo[i] != DisplayInfo[j]
  {
  }

  lemma DistinctFrom13()
    ensures forall i, j :: 13 <= i < 19 && i < j < |DisplayInfo| ==> DisplayInfo[i] != DisplayInfo[j]
  {
  }

  lemma DistinctFrom19()
    ensures forall i, j :: 19 <= i < 27 && i < j < |DisplayInfo| ==> DisplayInfo[i] != DisplayInfo[j]
  {
  }

  lemma DistinctFrom27()
    ensures forall i, j :: 27 <= i < 38 && i < j < |DisplayInfo| ==> DisplayInfo[i] != DisplayInfo[j]
  {
  }

  /** Nine difficulties; from index 3 on, the six top tiers. */
  lemma DifficultyTiers()
    ensures |Difficulties| == 9
    ensures Difficulties[3..] == ["MAXIMUM", "INFINITE", "GRAVITY", "HEAVENLY", "VIVID", "EXCEED"]
  {
  }

  /** The two achievement groups are disjoint, have five and ten members,
      and are display columns. */
  lemma AchievementGroups()
    ensures |ClearMark| == 5 && |ScoreGrade| == 10
    ensures forall k :: k in ClearMark ==> k !in ScoreGrade
    ensures forall k :: k in ClearMark + ScoreGrade ==> k in DisplayInfo
  {
  }

  /** The three required columns are display columns, none of them an
      achievement column. */
  lemma RequiredAreDisplayed()
    ensures forall k :: k in RequiredColumns ==> k in DisplayInfo && !IsAchievement(k)
  {
  }
}
